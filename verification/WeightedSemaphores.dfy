/** The weighted semaphore operations (source/syscall.c:171-231). */
module WeightedSemaphores {
  import opened Clist
  import opened Forests
  import opened Lists
  import opened Semaphores
  import opened Progress
  import opened Processes
  import opened Model
  import opened ModelInvariant
  import opened Memory
  import opened PcbQueues
  import opened ProcessTree
  import opened ActiveSemaphores
  import opened Termination

  // ----- fields of a PCB ------------------------------------------------------------

  /** ps' is ps but for fields of p that no list depends on. */
  lemma RepFields(m: Mem, p: int, v: Pcb, m': Mem)
    requires Rep(m) && 0 <= p < |m.pl| && v.kids == m.ps[p].kids && v.parent == m.ps[p].parent
    requires v.cursem == m.ps[p].cursem || (v.cursem == NULL && !m.l.status[p].Blocked?)
    requires m' == m.(ps := Put(m.ps, p, v), l := m.l.(need := Put(m.l.need, p, v.resWait)),
                      t := m.t.(pid := Put(m.t.pid, p, v.pid)), kt := Put(m.kt, p, v.kernelTime), gt := Put(m.gt, p, v.globalTime))
    ensures Rep(m')
  {
    FieldsPut(m, p, v);
    assert forall x {:trigger m.t.children[x]} :: 0 <= x < |m.ps| ==> m'.ps[x].kids == m.ps[x].kids;
  }

  lemma FieldsPut(m: Mem, p: int, v: Pcb)
    requires FieldsRep(m.ps, m.l.need, m.t, m.kt, m.gt) && 0 <= p < |m.ps| && v.parent == m.ps[p].parent
    ensures FieldsRep(Put(m.ps, p, v), Put(m.l.need, p, v.resWait), m.t.(pid := Put(m.t.pid, p, v.pid)),
              Put(m.kt, p, v.kernelTime), Put(m.gt, p, v.globalTime))
  {
  }

  lemma FieldsMean(m: Mem, p: int)
    requires Rep(m) && 0 <= p < |m.pl|
    ensures Sized(m) && |m.l.need| == |m.t.pid| == |m.kt| == |m.gt| == |m.pl|
    ensures var v := m.ps[p];
      v.resWait == m.l.need[p] && v.pid == m.t.pid[p] && v.kernelTime == m.kt[p] && v.globalTime == m.gt[p]
  {
  }

  /** Fields of p are assigned. */
  method SetFields(k: Kernel, p: int, v: Pcb)
    requires k.Core() && 0 <= p < k.n && v.kids == k.pcbs[p].kids && v.parent == k.pcbs[p].parent
    requires v.cursem == k.pcbs[p].cursem || (v.cursem == NULL && 0 <= p < |k.l.status| && !k.l.status[p].Blocked?)
    modifies k`l, k`t, k`kt, k`gt, k.pcbs
    ensures k.Core() && k.pcbs[..] == Put(old(k.pcbs[..]), p, v)
    ensures k.l == old(k.l).(need := Put(old(k.l.need), p, v.resWait))
    ensures k.t == old(k.t).(pid := Put(old(k.t.pid), p, v.pid))
    ensures k.kt == Put(old(k.kt), p, v.kernelTime) && k.gt == Put(old(k.gt), p, v.globalTime)
  {
    hide Rep;
    ghost var m := k.Snap();
    RepSized(m);
    k.pcbs[p] := v;
    k.l := m.l.(need := Put(m.l.need, p, v.resWait));
    k.t := m.t.(pid := Put(m.t.pid, p, v.pid));
    k.kt, k.gt := Put(m.kt, p, v.kernelTime), Put(m.gt, p, v.globalTime);
    RepFields(m, p, v, k.Snap());
  }

  // ----- verhogen ----------------------------------------------------------------------

  /** q is the ring of descriptor d, whose members all have d as p_cursem. */
  ghost predicate QueuesAt(m: Mem, d: int, q: seq<int>) {
    && 0 <= d < |m.sd| && IsRing(m.pl, m.sd[d].procq, q) && |m.ps| == |m.pl|
    && forall i {:trigger q[i]} :: 0 <= i < |q| ==>
         0 <= q[i] < |m.pl| && m.ps[q[i]].cursem == d && m.ps[q[i]].resWait == NeedOf(m.l.need, q[i])
  }

  /** The processes queued at a all name the same descriptor. */
  lemma QueueMeans(m: Mem, a: int)
    requires Rep(m)
    ensures Sized(m) && |m.l.need| == |m.pl|
    ensures QueueAt(m.l.queue, a) != [] ==> exists d :: QueuesAt(m, d, QueueAt(m.l.queue, a))
  {
    var q := QueueAt(m.l.queue, a);
    if q != [] {
      var d := m.owner[a];
      assert d in m.asl;
      forall i | 0 <= i < |q|
        ensures 0 <= q[i] < |m.pl| && m.ps[q[i]].cursem == d && m.ps[q[i]].resWait == NeedOf(m.l.need, q[i])
      {
        assert q[i] in m.l.queue[a] && Is(m.l, q[i], Blocked(a));
      }
      assert QueuesAt(m, d, q);
    }
  }

  /** The summing loop of verhogen.  It finds its list anew in every round,
      through the process it stands on: all of them name the same descriptor. */
  method SumOfDemands(k: Kernel, semaddr: int) returns (sum: int)
    requires k.Core()
    ensures sum == Demand(k.l.need, QueueAt(k.l.queue, semaddr))
  {
    hide Rep;
    ghost var m := k.Snap();
    ghost var q := QueueAt(m.l.queue, semaddr);
    QueueMeans(m, semaddr);
    sum := 0;
    var scan := HeadBlocked(k, semaddr);
    if scan != NULL {
      assert q != [] && scan == q[0];
      ghost var d :| QueuesAt(m, d, q);
      RingEnds(m.pl, m.sd[d].procq, q);
      scan := k.pList[k.semds[k.pcbs[scan].cursem].procq];
      var tmp := NULL;
      ghost var i := 0;
      while tmp != k.semds[k.pcbs[scan].cursem].procq
        invariant 0 <= i <= |q| && scan == (if i < |q| then q[i] else q[0]) && tmp == (if i == 0 then NULL else q[i - 1])
        invariant sum == Demand(m.l.need, q[..i])
        decreases |q| - i
      {
        sum := sum - k.pcbs[scan].resWait;
        assert m.pl[q[i]] == After(q, i);
        assert q[..i + 1] == q[..i] + [q[i]];
        DemandAdd(m.l.need, q[..i], q[i]);
        tmp := scan;
        scan := k.pList[scan];
        i := i + 1;
      }
      assert q[..i] == q;
    }
  }

  /** WakeOne, statement by statement. */
  lemma WakeMeans(l: Lists, a: int, l1: Lists, l2: Lists, l3: Lists)
    requires Inv(l) && QueueAt(l.queue, a) != []
    requires var p := QueueAt(l.queue, a)[0];
      l1 == Unlinked(l, p, a) && l2 == Unwaiting(l1, p) && l3 == AfterRequeue(l2, p)
    ensures l3 == WakeOne(l, a)
  {
    QueueNeeds(l, a);
    WithoutHead(QueueAt(l.queue, a));
  }

  lemma WakeParts(m: Mem, a: int)
    requires Rep(m) && Inv(m.l) && QueueAt(m.l.queue, a) != []
    ensures var p := QueueAt(m.l.queue, a)[0];
      && Is(m.l, p, Blocked(a)) && IsBlocked(m.l, p) && 0 <= p < |m.pl| && Sized(m) && 0 <= m.ps[p].cursem < |m.sd|
      && m.ps[p].resWait == NeedOf(m.l.need, p)
    ensures var l1 := Unlinked(m.l, QueueAt(m.l.queue, a)[0], a); ReadyWhole(l1) && Is(l1, QueueAt(m.l.queue, a)[0], Off)
  {
    assert QueueAt(m.l.queue, a)[0] in m.l.queue[a];
    BlockedIsQueued(m, QueueAt(m.l.queue, a)[0]);
  }

  /** The body of the waking loop (source/syscall.c:224-228). */
  method WakeHead(k: Kernel, a: int, p: int)
    requires k.Core() && Inv(k.l) && QueueAt(k.l.queue, a) != [] && p == QueueAt(k.l.queue, a)[0]
    modifies k`l, k`t, k`kt, k`gt, k`asl, k`sfree, k`owner, k`aslh, k`semdFree, k`softBlockCount, k`processCount, k`readyQueue,
      k.pList, k.pcbs, k.semds, k.sLink
    ensures k.Core() && k.l == WakeOne(old(k.l), a) && k.t == old(k.t) && k.kt == old(k.kt) && k.gt == old(k.gt)
    ensures SameOthers(old(k.pcbs[..]), k.pcbs[..], p)
  {
    hide Rep, Inv, WakeOne;
    ghost var l, m := k.l, k.Snap();
    WakeParts(m, a);
    var r := OutBlocked(k, p);
    ghost var l1 := k.l;
    Wakened(k, p);
    ghost var l2 := k.l;
    InsertReady(k, p);
    WakeMeans(l, a, l1, l2, k.l);
  }

  ghost predicate SameOthers(a: seq<Pcb>, b: seq<Pcb>, p: int) {
    |a| == |b| && forall x {:trigger b[x]} :: 0 <= x < |a| && x != p ==> a[x].cursem == b[x].cursem
  }

  lemma SameFields(m: Mem, p: int)
    requires Rep(m) && 0 <= p < |m.pl|
    ensures Sized(m) && Put(m.t.pid, p, m.ps[p].pid) == m.t.pid
    ensures Put(m.kt, p, m.ps[p].kernelTime) == m.kt && Put(m.gt, p, m.ps[p].globalTime) == m.gt
    ensures Put(m.l.need, p, m.ps[p].resWait) == m.l.need
  {
  }

  /** p waits for nothing any more. */
  function Unwaiting(l: Lists, p: int): Lists {
    l.(need := Put(l.need, p, 0), processCount := l.processCount + 0, softBlockCount := l.softBlockCount + -1)
  }

  /** The fields of a woken process (source/syscall.c:225-227). */
  method Wakened(k: Kernel, p: int)
    requires k.Core() && 0 <= p < k.n && Is(k.l, p, Off)
    modifies k`l, k`t, k`kt, k`gt, k`softBlockCount, k`processCount, k.pcbs
    ensures k.Core() && k.l == Unwaiting(old(k.l), p) && k.t == old(k.t)
    ensures k.kt == old(k.kt) && k.gt == old(k.gt)
    ensures k.pcbs[..] == Put(old(k.pcbs[..]), p, old(k.pcbs[..])[p].(cursem := NULL, resWait := 0))
  {
    hide Rep;
    SameFields(k.Snap(), p);
    SetFields(k, p, k.pcbs[p].(cursem := NULL, resWait := 0));
    Count(k, 0, -1);
  }

  lemma InvSem(l: Lists, sem: map<int, int>)
    requires Inv(l)
    ensures Inv(l.(sem := sem))
  {
    assert Live(l.(sem := sem)) == Live(l) && Waiting(l.(sem := sem)) == Waiting(l);
  }

  /** Who is not blocked keeps its p_cursem, and stays so. */
  ghost predicate Awake(l0: Lists, ps0: seq<Pcb>, l: Lists, ps: seq<Pcb>) {
    && |ps| == |ps0| && |l.status| == |l0.status|
    && forall x {:trigger ps[x]} {:trigger l.status[x]} :: 0 <= x < |ps| && x < |l.status| && !l0.status[x].Blocked? ==>
         ps[x].cursem == ps0[x].cursem && !l.status[x].Blocked?
  }

  lemma AwakeNext(l0: Lists, ps0: seq<Pcb>, l: Lists, ps: seq<Pcb>, a: int, ps': seq<Pcb>)
    requires Awake(l0, ps0, l, ps) && Inv(l) && QueueAt(l.queue, a) != [] && SameOthers(ps, ps', QueueAt(l.queue, a)[0])
    requires |ps| == |l.status|
    ensures Awake(l0, ps0, WakeOne(l, a), ps')
  {
    QueueNeeds(l, a);
    assert QueueAt(l.queue, a)[0] in QueueAt(l.queue, a);
  }

  lemma WakeGoesOn(l: Lists, a: int, sum: int, p: int)
    requires p == Head(QueueAt(l.queue, a)) && Inv(l)
    ensures if p != NULL && NeedOf(l.need, p) >= -sum && sum != 0
      then QueueAt(l.queue, a) != [] && p == QueueAt(l.queue, a)[0] && Wake(l, a, sum) == Wake(WakeOne(l, a), a, sum + NeedOf(l.need, p))
        && |QueueAt(WakeOne(l, a).queue, a)| < |QueueAt(l.queue, a)|
      else Wake(l, a, sum) == l
  {
    QueueNeeds(l, a);
    assert QueueAt(l.queue, a) != [] ==> QueueAt(l.queue, a)[0] in QueueAt(l.queue, a);
  }

  lemma ResWaitMeans(m: Mem, p: int)
    requires Rep(m) && 0 <= p < |m.pl|
    ensures m.ps[p].resWait == NeedOf(m.l.need, p) && Sized(m)
  {
  }

  lemma HeadInRange(m: Mem, a: int)
    requires Rep(m) && QueueAt(m.l.queue, a) != []
    ensures 0 <= QueueAt(m.l.queue, a)[0] < |m.pl| && Sized(m)
  {
    assert QueueAt(m.l.queue, a)[0] in m.l.queue[a];
  }

  /** The waking loop of verhogen (source/syscall.c:221-229). */
  method WakeLoop(k: Kernel, a: int, sum0: int)
    requires k.Core() && Inv(k.l)
    modifies k`l, k`t, k`kt, k`gt, k`asl, k`sfree, k`owner, k`aslh, k`semdFree, k`softBlockCount, k`processCount, k`readyQueue,
      k.pList, k.pcbs, k.semds, k.sLink
    ensures k.Core() && k.l == Wake(old(k.l), a, sum0) && k.t == old(k.t) && k.kt == old(k.kt) && k.gt == old(k.gt)
    ensures Awake(old(k.l), old(k.pcbs[..]), k.l, k.pcbs[..])
  {
    hide Rep, Inv, WakeOne, Wake, Awake, SameOthers;
    ghost var l0, ps0 := k.l, k.pcbs[..];
    var sum := sum0;
    AwakeStart(k.Snap());
    var tmp := HeadBlocked(k, a);
    while tmp != NULL
      invariant k.Core() && Inv(k.l) && tmp == Head(QueueAt(k.l.queue, a)) && Wake(k.l, a, sum) == Wake(l0, a, sum0)
      invariant k.t == old(k.t) && k.kt == old(k.kt) && k.gt == old(k.gt) && Awake(l0, ps0, k.l, k.pcbs[..])
      decreases |QueueAt(k.l.queue, a)|
    {
      WakeGoesOn(k.l, a, sum, tmp);
      HeadInRange(k.Snap(), a);
      ResWaitMeans(k.Snap(), tmp);
      if !(k.pcbs[tmp].resWait >= -sum && sum != 0) {
        return;
      }
      sum := sum + k.pcbs[tmp].resWait;
      AwakeSized(k.Snap());
      WakeOneKeeps(k.l, a);
      ghost var l, ps := k.l, k.pcbs[..];
      WakeHead(k, a, tmp);
      AwakeNext(l0, ps0, l, ps, a, k.pcbs[..]);
      tmp := HeadBlocked(k, a);
    }
    WakeGoesOn(k.l, a, sum, tmp);
  }

  lemma AwakeStart(m: Mem)
    requires Rep(m)
    ensures Awake(m.l, m.ps, m.l, m.ps)
  {
  }

  lemma AwakeSized(m: Mem)
    requires Rep(m)
    ensures |m.ps| == |m.l.status|
  {
  }

  /** verhogen */
  method Verhogen(k: Kernel, a: int, w: int)
    requires k.Core() && Inv(k.l)
    modifies k`l, k`t, k`kt, k`gt, k`asl, k`sfree, k`owner, k`aslh, k`semdFree, k`softBlockCount, k`processCount, k`readyQueue,
      k`word, k.pList, k.pcbs, k.semds, k.sLink
    ensures k.Core() && k.l == AfterRelease(old(k.l), a, w) && k.t == old(k.t) && k.kt == old(k.kt) && k.gt == old(k.gt)
    ensures Awake(old(k.l), old(k.pcbs[..]), k.l, k.pcbs[..])
  {
    hide Rep, Inv, Wake, Awake;
    InvSem(k.l, k.l.sem[a := Val(k.l.sem, a) + w]);
    SetWord(k, a, Val(k.word, a) + w);
    var sum := SumOfDemands(k, a);
    sum := sum + Val(k.word, a);
    WakeLoop(k, a, sum);
    AwakeValues(old(k.l), k.l.sem, old(k.pcbs[..]), k.l, k.pcbs[..]);
  }

  lemma AwakeValues(l0: Lists, sem: map<int, int>, ps0: seq<Pcb>, l: Lists, ps: seq<Pcb>)
    requires Awake(l0.(sem := sem), ps0, l, ps)
    ensures Awake(l0, ps0, l, ps)
  {
  }

  // ----- passeren ---------------------------------------------------------------------

  /** A running process never finds semdFree empty: active descriptors have
      disjoint, non-empty queues, and the process itself is in none. */
  lemma {:induction false} DescriptorLeft(m: Mem, p: int)
    requires Rep(m) && Placed(m.l) && Is(m.l, p, Off)
    ensures m.sfree != []
  {
    var addrs := seq(|m.asl|, i requires 0 <= i < |m.asl| => if 0 <= m.asl[i] < |m.sd| then m.sd[m.asl[i]].semAdd else 0);
    forall i | 0 <= i < |addrs|
      ensures addrs[i] in m.l.queue && IndexOf(addrs, addrs[i]) == i
    {
      assert m.asl[i] in m.asl;
      var j := IndexOf(addrs, addrs[i]);
      assert addrs[j] == m.sd[m.asl[j]].semAdd && addrs[i] == m.sd[m.asl[i]].semAdd;
    }
    ActiveBound(m.l, addrs);
    RunningIsNotWaiting(m.l, p);
    if m.sfree == [] {
      forall d | d in Range(|m.sd|)
        ensures d in Members(m.asl)
      {
        assert d !in m.sfree;
      }
      SubsetSize(Range(|m.sd|), Members(m.asl));
      MembersSize(m.asl);
    }
  }

  lemma PassMeans(l: Lists, p: int, a: int, w: int, l1: Lists, l2: Lists)
    requires Val(l.sem, a) + w < 0 && l1 == l.(sem := l.sem[a := Val(l.sem, a) + w])
    requires l2 == Counted(Enqueued(l1.(need := Put(l1.need, p, w)), p, a))
    ensures l2 == AfterRequest(l, p, a, w)
  {
  }

  lemma PassParts(l: Lists, p: int, a: int, w: int)
    requires Inv(l) && Is(l, p, Off)
    ensures var l1 := l.(sem := l.sem[a := Val(l.sem, a) + w]);
      Is(l1, p, Off) && Placed(l1.(need := Put(l1.need, p, w))) && Is(l1.(need := Put(l1.need, p, w)), p, Off)
  {
  }

  /** The fields that passeren sets before it blocks the caller. */
  method Suspend(k: Kernel, p: int, w: int, dk: int, dg: int)
    requires k.Core() && Is(k.l, p, Off) && 0 <= p < k.n
    modifies k`l, k`t, k`kt, k`gt, k.pcbs
    ensures k.Core() && k.l == old(k.l).(need := Put(old(k.l.need), p, w)) && k.t == old(k.t)
    ensures k.kt == Add(old(k.kt), p, dk) && k.gt == Add(old(k.gt), p, dg)
  {
    hide Rep;
    SameFields(k.Snap(), p);
    FieldsMean(k.Snap(), p);
    var v := k.pcbs[p];
    SetFields(k, p, v.(resWait := w, kernelTime := v.kernelTime + dk, globalTime := v.globalTime + dg));
  }

  /** passeren's blocking branch: insertBlocked finds a descriptor. */
  method Block(k: Kernel, p: int, a: int, w: int, dk: int, dg: int) returns (full: bool)
    requires k.Core() && Is(k.l, p, Off) && 0 <= p < k.n && a != 0 && Placed(k.l.(need := Put(k.l.need, p, w)))
    modifies k`l, k`t, k`kt, k`gt, k`asl, k`sfree, k`owner, k`aslh, k`semdFree, k.pList, k.pcbs, k.semds, k.sLink
    ensures k.Core() && !full && k.l == Enqueued(old(k.l).(need := Put(old(k.l.need), p, w)), p, a)
    ensures k.t == old(k.t) && k.kt == Add(old(k.kt), p, dk) && k.gt == Add(old(k.gt), p, dg)
  {
    hide Rep, Placed;
    Suspend(k, p, w, dk, dg);
    DescriptorLeft(k.Snap(), p);
    full := InsertBlocked(k, a, p);
  }

  /** The caller blocks, and the scheduler is told (source/syscall.c:186-199). */
  method BlockCaller(k: Kernel, a: int, w: int, c: Clock)
    requires k.Core() && Is(k.l, k.currentProcess, Off) && 0 <= k.currentProcess < k.n && a != 0
    requires Placed(k.l.(need := Put(k.l.need, k.currentProcess, w)))
    modifies k`l, k`t, k`kt, k`gt, k`asl, k`sfree, k`owner, k`aslh, k`semdFree, k`softBlockCount, k`processCount,
      k`currentProcess, k`flag, k`mode, k.pList, k.pcbs, k.semds, k.sLink
    ensures k.Core() && k.t == old(k.t) && k.mode == old(k.mode) && k.currentProcess == NULL && k.flag == LOADNEXT
    ensures var l, p := old(k.l), old(k.currentProcess);
      k.l == Counted(Enqueued(l.(need := Put(l.need, p, w)), p, a))
    ensures k.kt == Add(old(k.kt), old(k.currentProcess), c.blockKernel - k.kernelStart)
    ensures k.gt == Add(old(k.gt), old(k.currentProcess), c.blockGlobal - k.startTOD)
  {
    hide Rep, Placed, Enqueued;
    var full := Block(k, k.currentProcess, a, w, c.blockKernel - k.kernelStart, c.blockGlobal - k.startTOD);
    if full {
      assert false;  // PANIC
    }
    Count(k, 0, 1);
    k.flag := LOADNEXT;
    k.currentProcess := NULL;
  }

  function Counted(l: Lists): Lists {
    l.(processCount := l.processCount + 0, softBlockCount := l.softBlockCount + 1)
  }

  /** passeren (source/syscall.c:182-201) */
  method Passeren(k: Kernel, a: int, w: int, c: Clock)
    requires k.Core() && Inv(k.l) && Is(k.l, k.currentProcess, Off) && 0 <= k.currentProcess < k.n && w < 0 && a != 0
    modifies k`l, k`t, k`kt, k`gt, k`asl, k`sfree, k`owner, k`aslh, k`semdFree, k`word, k`softBlockCount, k`processCount,
      k`currentProcess, k`flag, k`mode, k.pList, k.pcbs, k.semds, k.sLink
    ensures k.Core() && k.l == AfterRequest(old(k.l), old(k.currentProcess), a, w) && k.t == old(k.t) && k.mode == old(k.mode)
    ensures Val(old(k.l.sem), a) + w >= 0 ==>
      && k.currentProcess == old(k.currentProcess) && k.flag == old(k.flag) && k.kt == old(k.kt) && k.gt == old(k.gt)
      && k.pcbs[..] == old(k.pcbs[..])
    ensures Val(old(k.l.sem), a) + w < 0 ==>
      && k.currentProcess == NULL && k.flag == LOADNEXT
      && k.kt == Add(old(k.kt), old(k.currentProcess), c.blockKernel - k.kernelStart)
      && k.gt == Add(old(k.gt), old(k.currentProcess), c.blockGlobal - k.startTOD)
  {
    hide Rep, Inv, Placed, Enqueued, Counted;
    ghost var l, p := k.l, k.currentProcess;
    PassParts(l, p, a, w);
    SetWord(k, a, Val(k.word, a) + w);
    if Val(k.word, a) < 0 {
      ghost var l1 := k.l;
      BlockCaller(k, a, w, c);
      PassMeans(l, p, a, w, l1, k.l);
    }
  }
}
