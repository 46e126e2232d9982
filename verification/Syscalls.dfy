/** The system calls (source/syscall.c): creation, termination and the
    semaphore operations. */
module Syscalls {
  import opened Clist
  import opened Forests
  import opened Lists
  import opened Semaphores
  import opened Processes
  import opened Model
  import opened ModelInvariant
  import opened Memory
  import opened PcbQueues
  import opened ProcessTree
  import opened Termination
  import opened WeightedSemaphores
  import Pid = PidGenerator

  lemma SamePid(t: Tree, parent: int, child: int)
    requires 0 <= parent < |t.children|
    ensures Relinked(t, parent, t.children[parent] + [child], child, parent).pid == t.pid
  {
  }

  // ----- create_process -----------------------------------------------------------

  /** child->pid = pid */
  method SetPid(k: Kernel, p: int, pid: int)
    requires k.Core() && 0 <= p < k.n
    modifies k`l, k`t, k`kt, k`gt, k.pcbs
    ensures k.Core() && k.l == old(k.l) && k.kt == old(k.kt) && k.gt == old(k.gt)
    ensures k.t == old(k.t).(pid := Put(old(k.t.pid), p, pid))
    ensures forall x :: 0 <= x < k.n ==> k.pcbs[x].cursem == old(k.pcbs[x].cursem)
  {
    hide Rep;
    SameFields(k.Snap(), p);
    SetFields(k, p, k.pcbs[p].(pid := pid));
  }

  /** p gets the next pid (source/syscall.c:50-51, source/initial.c:77-78). */
  method Name(k: Kernel, p: int) returns (pid: nat)
    requires k.Core() && 0 <= p < k.n && 0 <= k.t.pid[p] < Pid.WORD && k.counter < Pid.LARGEST
    modifies k`l, k`t, k`kt, k`gt, k`counter, k.pcbs
    ensures k.Core() && k.l == old(k.l) && k.kt == old(k.kt) && k.gt == old(k.gt) && k.counter == old(k.counter) + 1
    ensures pid == Pid.PidOf(old(k.t.pid)[p], old(k.counter))
    ensures k.t == old(k.t).(pid := Put(old(k.t.pid), p, pid))
    ensures forall x :: 0 <= x < k.n ==> k.pcbs[x].cursem == old(k.pcbs[x].cursem)
  {
    hide Rep;
    FieldsMean(k.Snap(), p);
    pid := Pid.Generate(k.pcbs[p].pid, k.counter);
    SetPid(k, p, pid);
    k.counter := k.counter + 1;
  }

  /** The child is entered in the tree and named (source/syscall.c:48-51). */
  method Adopt(k: Kernel, parent: int, child: int) returns (pid: nat)
    requires k.Core() && 0 <= parent < k.n && 0 <= child < k.n && k.t.parent[child] == NULL
    requires 0 <= k.t.pid[child] < Pid.WORD && k.counter < Pid.LARGEST
    modifies k`l, k`t, k`kt, k`gt, k`counter, k.pSib, k.pcbs
    ensures k.Core() && k.l == old(k.l) && k.kt == old(k.kt) && k.gt == old(k.gt) && k.counter == old(k.counter) + 1
    ensures pid == Pid.PidOf(old(k.t.pid)[child], old(k.counter))
    ensures var t := Relinked(old(k.t), parent, old(k.t.children)[parent] + [child], child, parent);
      k.t == t.(pid := Put(t.pid, child, pid))
    ensures forall x :: 0 <= x < k.n ==> k.pcbs[x].cursem == old(k.pcbs[x].cursem)
  {
    hide Kernel.Core, Relinked;
    CoreSized(k);
    InsertChild(k, parent, child);
    SamePid(old(k.t), parent, child);
    pid := Name(k, child);
  }

  lemma AllocatedParts(l: Lists, t: Tree, n: nat, first: int)
    requires Inv(l) && TreeInv(t, n, Live(l), first) && n == |l.status|
    ensures FreeDetached(l, t)
    ensures l.free != [] ==>
      && 0 <= l.free[0] < n && t.parent[l.free[0]] == NULL && |t.parent| == |t.pid| == n
      && Is(Allocated(l), l.free[0], Off) && ReadyWhole(Allocated(l))
  {
    if l.free != [] {
      assert l.free[0] in l.free;
    }
  }

  lemma CreateMeans(l: Lists, t: Tree, p: int, base: nat, counter: nat, l': Lists, t': Tree)
    requires l.free != [] && counter < Pid.LARGEST && 0 <= p < |t.children| == |t.pid| && 0 <= l.free[0] < |t.pid|
    requires var l1 := AfterRequeue(Allocated(l), l.free[0]);
      l' == l1.(processCount := l1.processCount + 1, softBlockCount := l1.softBlockCount + 0)
    requires var c, t1 := l.free[0], t.(pid := Put(t.pid, l.free[0], base));
      var u := Relinked(t1, p, t1.children[p] + [c], c, p);
      t' == u.(pid := Put(u.pid, c, Pid.PidOf(base, counter)), forest := Graft(u.forest, p, c))
    ensures l' == AfterSpawn(l) && t' == WithChild(t, p, l.free[0], Pid.PidOf(base, counter))
  {
    var c := l.free[0];
    assert Put(Put(t.pid, c, base), c, Pid.PidOf(base, counter)) == Put(t.pid, c, Pid.PidOf(base, counter));
    assert Put(Put(l.status, c, Off), c, Ready) == Put(l.status, c, Ready);
  }

  /** The part of create_process that follows allocPcb. */
  method Launch(k: Kernel, child: int) returns (pid: nat)
    requires k.Core() && 0 <= k.currentProcess < k.n && 0 <= child < k.n && k.t.parent[child] == NULL
    requires 0 <= k.t.pid[child] < Pid.WORD && k.counter < Pid.LARGEST
    requires ReadyWhole(k.l) && Is(k.l, child, Off) && k.pcbs[child].cursem == NULL
    modifies k`l, k`t, k`kt, k`gt, k`counter, k`readyQueue, k`processCount, k`softBlockCount, k.pList, k.pSib, k.pcbs
    ensures k.Core() && k.kt == old(k.kt) && k.gt == old(k.gt) && k.counter == old(k.counter) + 1
    ensures pid == Pid.PidOf(old(k.t.pid)[child], old(k.counter))
    ensures var l := AfterRequeue(old(k.l), child);
      k.l == l.(processCount := l.processCount + 1, softBlockCount := l.softBlockCount + 0)
    ensures var t := Relinked(old(k.t), k.currentProcess, old(k.t.children)[k.currentProcess] + [child], child, k.currentProcess);
      k.t == t.(pid := Put(t.pid, child, pid), forest := Graft(t.forest, k.currentProcess, child))
    ensures forall x :: 0 <= x < k.n ==> k.pcbs[x].cursem == old(k.pcbs[x].cursem)
  {
    hide Kernel.Core, Relinked, Graft, AfterRequeue;
    CoreSized(k);
    pid := Adopt(k, k.currentProcess, child);
    SetForest(k, Graft(k.t.forest, k.currentProcess, child));
    InsertReady(k, child);
    Count(k, 1, 0);
  }

  /** The branch of create_process for a free PCB (source/syscall.c:42-57). */
  method Spawned(k: Kernel, base: int, child: int, ghost l: Lists, ghost t: Tree) returns (pid: nat)
    requires k.Core() && 0 <= base < Pid.WORD && k.counter < Pid.LARGEST && 0 <= k.currentProcess < k.n && 0 <= child < k.n
    requires l.free != [] && child == l.free[0] && k.l == Allocated(l)
    requires k.t == t.(pid := Put(t.pid, child, base)) && t.parent[child] == NULL
    requires ReadyWhole(k.l) && Is(k.l, child, Off) && k.pcbs[child].cursem == NULL
    modifies k`l, k`t, k`kt, k`gt, k`counter, k`readyQueue, k`processCount, k`softBlockCount, k.pList, k.pSib, k.pcbs
    ensures k.Core() && k.counter == old(k.counter) + 1 && pid == Pid.PidOf(base, old(k.counter))
    ensures k.l == AfterSpawn(l) && k.t == WithChild(t, k.currentProcess, child, pid) && k.kt == old(k.kt) && k.gt == old(k.gt)
    ensures forall x :: 0 <= x < k.n ==> k.pcbs[x].cursem == old(k.pcbs[x].cursem)
  {
    hide Kernel.Core, AfterRequeue, Allocated, Relinked, Graft, WithChild, AfterSpawn;
    CoreSized(k);
    ghost var c := k.counter;
    pid := Launch(k, child);
    CreateMeans(l, t, k.currentProcess, base, c, k.l, k.t);
  }

  /** create_process: the new pid, or -1 if there is no free PCB. */
  method CreateProcess(k: Kernel, base: int, ghost first: int) returns (pid: int)
    requires k.Valid(first) && k.currentProcess != NULL && k.counter < Pid.LARGEST && 0 <= base < Pid.WORD
    modifies k`l, k`t, k`kt, k`gt, k`counter, k`pcbFree, k`readyQueue, k`processCount, k`softBlockCount, k.pList, k.pSib, k.pcbs
    ensures k.Core() && k.Abs() == Model.CreateProcess(old(k.Abs()), base) && CurrentClear(k.pcbs[..], k.currentProcess)
    ensures pid == if old(k.l.free) == [] then -1 else Pid.PidOf(base, old(k.counter))
  {
    hide Kernel.Core, Allocated, KInv;
    CoreSized(k);
    CreateParts(k.Abs(), first);
    ghost var l, t := k.l, k.t;
    pid := -1;
    var child := AllocPcb(k, base);
    if child != NULL {
      pid := Spawned(k, base, child, l, t);
    }
  }

  lemma CreateParts(k: KState, first: int)
    requires KInv(k, first) && k.current != NULL
    ensures 0 <= k.current < |k.l.status| && FreeDetached(k.l, k.t) && |k.t.parent| == |k.t.pid| == |k.l.status|
    ensures k.l.free != [] ==>
      && 0 <= k.l.free[0] < |k.l.status| && k.t.parent[k.l.free[0]] == NULL
      && Is(Allocated(k.l), k.l.free[0], Off) && ReadyWhole(Allocated(k.l))
  {
    AllocatedParts(k.l, k.t, |k.l.status|, first);
  }

  // ----- terminate_process ----------------------------------------------------------

  /** Live processes other than the running one are ready or blocked. */
  lemma OthersDoomed(l: Lists, s: set<int>, current: int)
    requires CurrentOk(l, current) && s <= Live(l) && current !in s
    ensures Doomed(l, s)
  {
    forall x | x in s
      ensures 0 <= x < |l.status| && (l.status[x].Blocked? || l.status[x] == Ready)
    {
      assert x in Live(l) && !Is(l, x, Off);
    }
  }

  lemma DoomedBlocked(l: Lists, s: set<int>)
    requires Placed(l) && Doomed(l, s) && forall p :: p in s ==> p !in l.ready
    ensures forall x :: x in s ==> IsBlocked(l, x)
  {
  }

  /** Whoever is below a process that may be killed can die. */
  lemma {:induction false} BelowDoomed(k: KState, v: int, first: int)
    requires KInv(k, first) && v in Live(k.l) && KillOk(k, v) && k.current !in Nodes(Below(k.t.forest, v))
    ensures Doomed(k.l, Nodes(Below(k.t.forest, v)))
    ensures !k.repaired ==> forall x :: x in Nodes(Below(k.t.forest, v)) ==> IsBlocked(k.l, x)
  {
    hide Placed, Linked, Doomed, CurrentOk, Nodes, Below, Spells, Simple;
    BelowFacts(k.t.children, k.t.forest, v);
    BelowLives(k, v, first);
    OthersDoomed(k.l, Nodes(Below(k.t.forest, v)), k.current);
    if !k.repaired {
      DoomedBlocked(k.l, Nodes(Below(k.t.forest, v)));
    }
  }

  lemma BelowLives(k: KState, v: int, first: int)
    requires KInv(k, first) && v in Live(k.l)
    ensures Nodes(Below(k.t.forest, v)) <= Live(k.l)
  {
    BelowFacts(k.t.children, k.t.forest, v);
  }

  lemma SelfParts(k: KState, v: int, first: int)
    requires KInv(k, first) && v == k.current && v != NULL && KillOk(k, v)
    ensures 0 <= v < |k.l.status| && Is(k.l, v, Off) && TreeOk(k.t) && v in Nodes(k.t.forest)
    ensures Linked(k.t, |k.l.status|) && v !in Nodes(Below(k.t.forest, v)) && Hanging(k.t, v, Below(k.t.forest, v))
    ensures Simple(Below(k.t.forest, v)) && ReadyWhole(k.l)
    ensures Doomed(k.l, Nodes(Below(k.t.forest, v)))
    ensures !k.repaired ==> forall x :: x in Nodes(Below(k.t.forest, v)) ==> IsBlocked(k.l, x)
  {
    hide KillOk, Doomed;
    assert v in Live(k.l);
    BelowHangs(k.t, v);
    BelowDoomed(k, v, first);
  }

  lemma SelfDies(l: Lists, t: Tree, v: int, l1: Lists, repaired: bool)
    requires ReadyWhole(l) && Distinct(l.ready) && Is(l, v, Off) && l1 == Deaths(l, Post(Below(t.forest, v)) + [], repaired)
    requires v !in Nodes(Below(t.forest, v))
    requires !repaired ==> forall x :: x in Nodes(Below(t.forest, v)) ==> IsBlocked(l, x)
    ensures ReadyWhole(l1) && Is(l1, v, Off)
  {
    assert Post(Below(t.forest, v)) + [] == Post(Below(t.forest, v));
    FoundDies(l, t, v, l1, repaired);
  }

  /** What Bury leaves of l1 and t1. */
  ghost predicate Buried(l1: Lists, t1: Tree, v: int, l2: Lists, t2: Tree) {
    && l2 == l1.(processCount := l1.processCount + -1, softBlockCount := l1.softBlockCount + 0,
                 ready := Without(l1.ready, v), free := l1.free + [v],
                 status := if v in l1.ready then Put(Put(l1.status, v, Off), v, Free) else Put(l1.status, v, Free))
    && 0 <= v < |t1.parent|
    && var d := t1.parent[v];
       t2 == if 0 <= d < |t1.children| then Relinked(t1, d, Without(t1.children[d], v), v, NULL) else t1
  }

  lemma SelfBuried(l: Lists, t: Tree, v: int, l1: Lists, t1: Tree, l2: Lists, t2: Tree, repaired: bool)
    requires l1 == Deaths(l, Post(Below(t.forest, v)) + [], repaired) && Is(l1, v, Off) && Buried(l1, t1, v, l2, t2)
    requires Linked(t, |t.children|) && TreeOk(t) && v in Nodes(t.forest) && 0 <= v < |t.children|
    requires t1 == Stripped(t, v, [], Nodes(Below(t.forest, v)))
    ensures l2 == KillLists(l, t, v, repaired) && t2.(forest := Prune(t.forest, v)) == Felled(t, v) && t2.forest == t.forest
  {
    assert Post(Below(t.forest, v)) + [] == Post(Below(t.forest, v));
    BuryMeans(l, t, v, l1, l1, l2, repaired);
    FelledMeans(t, |t.children|, v, t1, t2);
  }

  /** Bury, for a process that is in no list. */
  method BuryCaller(k: Kernel, v: int)
    requires k.Core() && ReadyWhole(k.l) && Is(k.l, v, Off)
    modifies k`l, k`t, k`processCount, k`softBlockCount, k`readyQueue, k`pcbFree, k.pList, k.pSib, k.pcbs
    ensures k.Core() && Buried(old(k.l), old(k.t), v, k.l, k.t)
  {
    hide Kernel.Core;
    CoreSized(k);
    CoreParent(k, v);
    Bury(k, v);
  }

  /** The death of the caller, but for current_process and flag. */
  method Die(k: Kernel, v: int, ghost first: int)
    requires k.Core() && KInv(k.Abs(), first) && v == k.currentProcess && v != NULL && KillOk(k.Abs(), v)
    modifies k`l, k`t, k`asl, k`sfree, k`owner, k`aslh, k`semdFree, k`word, k`softBlockCount, k`processCount, k`pcbFree,
      k`readyQueue, k.pList, k.pSib, k.pcbs, k.semds, k.sLink
    ensures k.Core() && k.l == KillLists(old(k.l), old(k.t), v, k.repaired) && k.t == Felled(old(k.t), v)
  {
    hide Kernel.Core, KInv, KillOk, Deaths, Stripped, KillLists, Felled, Spells, Post, Linked, Hanging, TreeOk, ReadyWhole,
      Buried, Doomed, Distinct;
    ghost var l, t := k.l, k.t;
    CoreSized(k);
    CoreReady(k);
    SelfParts(k.Abs(), v, first);
    TerminateChildren(k, v, v, Below(t.forest, v));
    ghost var l1, t1 := k.l, k.t;
    SelfDies(l, t, v, l1, k.repaired);
    BuryCaller(k, v);
    SelfBuried(l, t, v, l1, t1, k.l, k.t, k.repaired);
    SetForest(k, Prune(t.forest, v));
  }

  /** terminate_process of the caller (source/syscall.c:115-123). */
  method KillSelf(k: Kernel, ghost first: int)
    requires k.Valid(first) && k.currentProcess != NULL && KillOk(k.Abs(), k.currentProcess)
    modifies k`l, k`t, k`asl, k`sfree, k`owner, k`aslh, k`semdFree, k`word, k`softBlockCount, k`processCount, k`pcbFree,
      k`readyQueue, k`currentProcess, k`flag, k.pList, k.pSib, k.pcbs, k.semds, k.sLink
    ensures k.Core() && k.Abs() == KillCurrent(old(k.Abs())) && k.currentProcess == NULL
  {
    hide Rep, KInv, KillOk, KillLists, Felled;
    Die(k, k.currentProcess, first);
    k.currentProcess := NULL;
    k.flag := LOADNEXT;
  }

  lemma CallerParts(k: KState, first: int)
    requires KInv(k, first) && k.current != NULL
    ensures ReadyWhole(k.l) && TreeOk(k.t) && k.current in Nodes(k.t.forest) && 0 <= k.current < |k.l.status|
  {
    assert k.current in Live(k.l);
  }

  /** lookfor_progeny looks for whom terminate_process means. */
  lemma FoundIsTarget(k: KState, pid: int, first: int)
    requires KInv(k, first) && k.current != NULL && pid != PidAt(k.t, k.current) && pid != 0
    ensures Found(k.t, k.current, pid) == Target(k, pid)
  {
    assert Searched(k.t, k.current)[1..] == Pre(Below(k.t.forest, k.current));
  }

  lemma NobodyKillable(l: Lists, t: Tree, repaired: bool)
    ensures Killable(l, t, NULL, repaired)
  {
  }

  lemma VictimKillable(k: KState, v: int, first: int)
    requires KInv(k, first) && v in Live(k.l) && v != k.current && KillOk(k, v) && k.current !in Nodes(Below(k.t.forest, v))
    ensures Killable(k.l, k.t, v, k.repaired)
  {
    hide KillOk, Doomed, TreeInv, Inv;
    BelowDoomed(k, v, first);
    OthersDoomed(k.l, {v}, k.current);
  }

  lemma SearchParts(k: KState, pid: int, first: int)
    requires KInv(k, first) && k.current != NULL && pid != PidAt(k.t, k.current) && pid != 0
    requires Target(k, pid) != NULL ==> KillOk(k, Target(k, pid))
    ensures ReadyWhole(k.l) && TreeOk(k.t) && k.current in Nodes(k.t.forest) && 0 <= k.current < |k.l.status|
    ensures Found(k.t, k.current, pid) == Target(k, pid) != k.current && Killable(k.l, k.t, Target(k, pid), k.repaired)
  {
    hide KInv, KillOk, Killable, ReadyWhole, TreeOk, Subtree, Nodes, Target, Found;
    CallerParts(k, first);
    TargetMeaning(k, pid, first);
    FoundIsTarget(k, pid, first);
    NobodyKillable(k.l, k.t, k.repaired);
    if Target(k, pid) != NULL {
      VictimKillable(k, Target(k, pid), first);
    }
  }

  /** The search for the pid among the progeny of the caller. */
  method SearchProgeny(k: Kernel, pid: int, ghost first: int) returns (found: bool)
    requires k.Core() && KInv(k.Abs(), first) && k.currentProcess != NULL && pid != PidAt(k.t, k.currentProcess) && pid != 0
    requires var v := Target(k.Abs(), pid); v != NULL ==> KillOk(k.Abs(), v)
    modifies k`l, k`t, k`asl, k`sfree, k`owner, k`aslh, k`semdFree, k`word, k`softBlockCount, k`processCount, k`pcbFree,
      k`readyQueue, k.pList, k.pSib, k.pcbs, k.semds, k.sLink
    ensures k.Core() && SameCursems(old(k.pcbs[..]), k.pcbs[..]) && found == (old(Target(k.Abs(), pid)) != NULL)
    ensures !found ==> k.l == old(k.l) && k.t == old(k.t)
    ensures found ==> var v := old(Target(k.Abs(), pid));
      k.l == KillLists(old(k.l), old(k.t), v, k.repaired) && k.t == Felled(old(k.t), v)
  {
    hide Kernel.Core, Kernel.Snap, KInv, KillOk, KillLists, Felled, Target, Found, ReadyWhole, TreeOk, Killable, SameCursems;
    CoreSized(k);
    SearchParts(k.Abs(), pid, first);
    found := LookforProgeny(k, k.currentProcess, pid);
  }

  lemma ClearKept(ps: seq<Pcb>, ps': seq<Pcb>, current: int)
    requires SameCursems(ps, ps') && CurrentClear(ps, current)
    ensures CurrentClear(ps', current)
  {
  }

  /** PANIC */
  method Panic(k: Kernel)
    requires k.Core()
    modifies k`mode
    ensures k.Core() && k.Abs() == old(k.Abs()).(mode := Panicked)
  {
    hide Rep;
    k.mode := Panicked;
  }

  /** terminate_process of another process (source/syscall.c:127-135). */
  method KillProgeny(k: Kernel, pid: int, ghost first: int)
    requires k.Valid(first) && k.currentProcess != NULL && pid != PidAt(k.t, k.currentProcess) && pid != 0
    requires var v := Target(k.Abs(), pid); v != NULL ==> KillOk(k.Abs(), v)
    modifies k`l, k`t, k`asl, k`sfree, k`owner, k`aslh, k`semdFree, k`word, k`softBlockCount, k`processCount, k`pcbFree,
      k`readyQueue, k`mode, k.pList, k.pSib, k.pcbs, k.semds, k.sLink
    ensures k.Core() && CurrentClear(k.pcbs[..], k.currentProcess)
    ensures var s := old(k.Abs());
      k.Abs() == if Target(s, pid) == NULL then s.(mode := Panicked) else KillTree(s, Target(s, pid))
  {
    hide Kernel.Core, Kernel.Snap, KInv, KillOk, KillLists, Felled, Target, SameCursems, CurrentClear, PidAt;
    var found := SearchProgeny(k, pid, first);
    ClearKept(old(k.pcbs[..]), k.pcbs[..], k.currentProcess);
    if !found {
      Panic(k);
    }
  }

  /** terminate_process: the caller, or the first of its progeny with that pid
      in preorder, dies with all its descendants; PANIC if there is none. */
  method TerminateProcess(k: Kernel, pid: int, ghost first: int)
    requires k.Valid(first) && k.currentProcess != NULL
    requires var v := Target(k.Abs(), pid); v != NULL ==> KillOk(k.Abs(), v)
    modifies k`l, k`t, k`asl, k`sfree, k`owner, k`aslh, k`semdFree, k`word, k`softBlockCount, k`processCount, k`pcbFree,
      k`readyQueue, k`mode, k`currentProcess, k`flag, k.pList, k.pSib, k.pcbs, k.semds, k.sLink
    ensures k.Core() && CurrentClear(k.pcbs[..], k.currentProcess)
    ensures k.Abs() == Model.TerminateProcess(old(k.Abs()), pid)
  {
    hide Kernel.Core, Kernel.Abs, KInv, KillOk, KillCurrent, KillTree, Target;
    CurrentPid(k, first);
    TargetElsewhere(k.Abs(), pid, first);
    if pid == 0 || pid == k.pcbs[k.currentProcess].pid {
      KillSelf(k, first);
    } else {
      KillProgeny(k, pid, first);
    }
  }

  lemma TargetElsewhere(k: KState, pid: int, first: int)
    requires KInv(k, first) && k.current != NULL
    ensures Target(k, pid) == k.current <==> pid == 0 || pid == PidAt(k.t, k.current)
  {
    TargetMeaning(k, pid, first);
  }

  lemma CurrentPid(k: Kernel, first: int)
    requires k.Core() && KInv(k.Abs(), first) && k.currentProcess != NULL
    ensures 0 <= k.currentProcess < k.n == k.pcbs.Length && k.pcbs[k.currentProcess].pid == PidAt(k.t, k.currentProcess)
    ensures k.Abs().current == k.currentProcess && k.Abs().t == k.t
  {
    FieldsMean(k.Snap(), k.currentProcess);
  }

  // ----- semaphore_operation ---------------------------------------------------------

  lemma AwakeClear(l: Lists, ps: seq<Pcb>, l': Lists, ps': seq<Pcb>, current: int)
    requires Awake(l, ps, l', ps') && CurrentOk(l, current) && CurrentClear(ps, current)
    ensures CurrentClear(ps', current)
  {
    assert 0 <= current < |ps| ==> Is(l, current, Off);
  }

  /** The else-branch of semaphore_operation. */
  method Release(k: Kernel, a: int, w: int)
    requires k.Core() && Inv(k.l) && CurrentOk(k.l, k.currentProcess) && CurrentClear(k.pcbs[..], k.currentProcess)
    modifies k`l, k`t, k`kt, k`gt, k`asl, k`sfree, k`owner, k`aslh, k`semdFree, k`softBlockCount, k`processCount, k`readyQueue,
      k`word, k.pList, k.pcbs, k.semds, k.sLink
    ensures k.Core() && CurrentClear(k.pcbs[..], k.currentProcess)
    ensures k.Abs() == old(k.Abs()).(l := AfterRelease(old(k.l), a, w))
  {
    hide Kernel.Core, Inv, AfterRelease, Awake, CurrentOk, CurrentClear;
    Verhogen(k, a, w);
    AwakeClear(old(k.l), old(k.pcbs[..]), k.l, k.pcbs[..], k.currentProcess);
  }

  lemma RequestMeans(k: KState, a: int, w: int, c: Clock, m: KState)
    requires a != 0 && w < 0 && m.l == AfterRequest(k.l, k.current, a, w)
    requires m == k.(l := m.l, current := m.current, flag := m.flag, time := m.time)
    requires Val(k.l.sem, a) + w >= 0 ==> m.current == k.current && m.flag == k.flag && m.time == k.time
    requires Val(k.l.sem, a) + w < 0 ==>
      && m.current == NULL && m.flag == LOADNEXT
      && m.time.kernelTime == Add(k.time.kernelTime, k.current, c.blockKernel - k.time.kernelStart)
      && m.time.globalTime == Add(k.time.globalTime, k.current, c.blockGlobal - k.time.startTOD)
      && m.time == k.time.(kernelTime := m.time.kernelTime, globalTime := m.time.globalTime)
    ensures m == Model.SemaphoreOperation(k, a, w, c)
  {
  }

  lemma CallerIsOff(k: KState, first: int)
    requires KInv(k, first) && k.current != NULL
    ensures Inv(k.l) && Is(k.l, k.current, Off) && 0 <= k.current < |k.l.status|
  {
  }

  /** The branch for a negative weight. */
  method Request(k: Kernel, a: int, w: int, c: Clock, ghost first: int)
    requires k.Core() && KInv(k.Abs(), first) && CurrentClear(k.pcbs[..], k.currentProcess)
    requires k.currentProcess != NULL && w < 0 && a != 0
    modifies k`l, k`t, k`kt, k`gt, k`asl, k`sfree, k`owner, k`aslh, k`semdFree, k`word, k`softBlockCount, k`processCount,
      k`currentProcess, k`flag, k`mode, k.pList, k.pcbs, k.semds, k.sLink
    ensures k.Core() && CurrentClear(k.pcbs[..], k.currentProcess)
    ensures k.Abs() == Model.SemaphoreOperation(old(k.Abs()), a, w, c)
  {
    hide Kernel.Core, Inv, KInv, AfterRequest, Add, Model.SemaphoreOperation;
    CoreSized(k);
    CallerIsOff(k.Abs(), first);
    Passeren(k, a, w, c);
    RequestMeans(old(k.Abs()), a, w, c, k.Abs());
  }

  /** semaphore_operation: PANIC for NULL, the death of the caller for weight 0,
      passeren below, verhogen above. */
  method SemaphoreOperation(k: Kernel, a: int, w: int, c: Clock, ghost first: int)
    requires k.Valid(first) && (w <= 0 ==> k.currentProcess != NULL)
    requires a != 0 && w == 0 ==> KillOk(k.Abs(), k.currentProcess)
    modifies k`l, k`t, k`kt, k`gt, k`asl, k`sfree, k`owner, k`aslh, k`semdFree, k`word, k`softBlockCount, k`processCount,
      k`pcbFree, k`readyQueue, k`currentProcess, k`flag, k`mode, k.pList, k.pSib, k.pcbs, k.semds, k.sLink
    ensures k.Core() && CurrentClear(k.pcbs[..], k.currentProcess)
    ensures k.Abs() == Model.SemaphoreOperation(old(k.Abs()), a, w, c)
  {
    hide Kernel.Core, Kernel.Abs, KInv, KillOk, KillCurrent, Target, CurrentClear, AfterRequest, AfterRelease;
    AbsFields(k);
    if a == 0 {
      Panic(k);
    } else if w == 0 {
      CurrentPid(k, first);
      TargetSelf(k.Abs());
      TerminateProcess(k, k.pcbs[k.currentProcess].pid, first);
    } else if w < 0 {
      Request(k, a, w, c, first);
    } else {
      InvOf(k.Abs(), first);
      Release(k, a, w);
    }
  }

  lemma AbsFields(k: Kernel)
    ensures k.Abs().l == k.l && k.Abs().current == k.currentProcess && k.Abs().t == k.t
  {
  }

  lemma TargetSelf(k: KState)
    ensures Target(k, PidAt(k.t, k.current)) == k.current
  {
  }

  /** wait_clock */
  method WaitClock(k: Kernel, c: Clock, ghost first: int)
    requires k.Valid(first) && k.currentProcess != NULL
    modifies k`l, k`t, k`kt, k`gt, k`asl, k`sfree, k`owner, k`aslh, k`semdFree, k`word, k`softBlockCount, k`processCount,
      k`pcbFree, k`readyQueue, k`currentProcess, k`flag, k`mode, k.pList, k.pSib, k.pcbs, k.semds, k.sLink
    ensures k.Core() && CurrentClear(k.pcbs[..], k.currentProcess)
    ensures k.Abs() == Model.SemaphoreOperation(old(k.Abs()), ClockSem(old(k.l)), -1, c)
  {
    hide Rep, KInv, Model.SemaphoreOperation;
    SemaphoreOperation(k, k.dev + MAX_DEVICES - 1, -1, c, first);
  }
}
