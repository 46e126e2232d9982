/** Power-on and main (source/initial.c, source/pcb.c:70-79, source/asl.c:160-171). */
module Boot {
  import opened Clist
  import opened Forests
  import opened Lists
  import opened Processes
  import opened Model
  import opened ModelInvariant
  import opened Memory
  import opened PcbQueues
  import opened ProcessTree
  import opened WeightedSemaphores
  import opened Syscalls
  import opened Scheduler
  import opened Termination
  import Pid = PidGenerator

  function Upto(n: nat): seq<int> {
    seq(n, i => i)
  }

  lemma UptoDistinct(n: nat)
    ensures Distinct(Upto(n)) && forall x :: x in Upto(n) <==> 0 <= x < n
  {
    forall x | 0 <= x < n
      ensures x in Upto(n)
    {
      assert Upto(n)[x] == x;
    }
  }

  lemma UptoRing(next: seq<int>, n: nat)
    requires |next| == n >= 1 && next[n - 1] == 0 && forall j :: 0 <= j < n - 1 ==> next[j] == j + 1
    ensures IsRing(next, n - 1, Upto(n))
  {
    UptoDistinct(n);
    forall i | 0 <= i < n
      ensures next[Upto(n)[i]] == After(Upto(n), i)
    {
    }
  }

  /** The loops of initPcbs and initASL: all records of a table, in one ring. */
  method LinkAll(next: array<int>) returns (tail: int)
    requires next.Length >= 1
    modifies next
    ensures IsRing(next[..], tail, Upto(next.Length))
  {
    var n := next.Length;
    tail := n - 1;
    next[n - 1] := 0;
    for i := 1 to n
      invariant next[n - 1] == 0 && forall j :: 0 <= j < i - 1 ==> next[j] == j + 1
    {
      next[i - 1] := i;
    }
    UptoRing(next[..], n);
  }

  /** The tables after initPcbs and initASL. */
  ghost predicate PooledLinks(m: Mem, n: nat) {
    && |m.pl| == |m.sib| == |m.sl| == |m.ps| == |m.sd| == n
    && IsRing(m.pl, m.pcbFree, Upto(n)) && IsRing(m.sl, m.semdFree, Upto(n))
    && m.readyQueue == NULL && m.aslh == NULL
    && (forall i :: 0 <= i < n ==> m.sib[i] == NULL && m.ps[i] == Pcb(NULL, NULL, NULL, 0, 0, 0, 0) && m.sd[i] == Semd(0, NULL))
  }

  lemma PooledRep(m: Mem, mc: Machine)
    requires PooledLinks(m, mc.n) && m.l == InitialLists(mc) && m.t == NoTree(mc.n)
    requires m.asl == [] && m.sfree == Upto(mc.n) && m.owner == map[]
    requires m.kt == seq(mc.n, i => 0) && m.gt == seq(mc.n, i => 0)
    ensures Rep(m)
  {
    UptoDistinct(mc.n);
    assert m.l.free == Upto(mc.n);
    forall p | 0 <= p < mc.n
      ensures IsRing(m.sib, m.ps[p].kids, m.t.children[p])
    {
      assert m.t.children[p] == [];
    }
  }

  /** The device semaphores are set to 0, whatever the other words are. */
  method ZeroDevices(k: Kernel)
    modifies k`word
    ensures k.word == Zeroed(old(k.word), k.dev, MAX_DEVICES)
  {
    for i := 0 to MAX_DEVICES
      invariant k.word == Zeroed(old(k.word), k.dev, i)
    {
      k.word := k.word[k.dev + i := 0];
    }
  }

  /** initPcbs */
  method InitPcbs(k: Kernel)
    requires k.Blank()
    modifies k`pcbFree, k.pList
    ensures IsRing(k.pList[..], k.pcbFree, Upto(k.n))
  {
    k.pcbFree := LinkAll(k.pList);
  }

  /** initASL */
  method InitASL(k: Kernel)
    requires k.Apart() && k.n >= 1
    modifies k`aslh, k`semdFree, k.sLink
    ensures k.aslh == NULL && IsRing(k.sLink[..], k.semdFree, Upto(k.n))
  {
    k.aslh := NULL;
    k.semdFree := LinkAll(k.sLink);
  }

  /** What the tables and the globals mean. */
  ghost method Interpret(k: Kernel, mc: Machine)
    requires mc.n == k.n && mc.dev == k.dev
    requires k.Apart() && PooledLinks(k.Snap(), k.n) && k.word == Zeroed(mc.words, mc.dev, MAX_DEVICES)
    requires k.processCount == k.softBlockCount == 0
    modifies k`l, k`t, k`kt, k`gt, k`asl, k`sfree, k`owner
    ensures k.Core() && k.l == InitialLists(mc) && k.t == NoTree(k.n)
    ensures k.kt == seq(k.n, i => 0) && k.gt == seq(k.n, i => 0)
  {
    hide Rep, IsRing;
    k.l, k.t := InitialLists(mc), NoTree(k.n);
    k.asl, k.sfree, k.owner := [], Upto(k.n), map[];
    k.kt, k.gt := seq(k.n, i => 0), seq(k.n, i => 0);
    PooledRep(k.Snap(), mc);
  }

  /** The machine that k is. */
  ghost function MachineOf(k: Kernel): Machine
    reads k
  {
    Machine(k.n, k.dev, k.word, k.repaired)
  }

  /** initPcbs and initASL, and the globals they are followed by. */
  method BuildTables(k: Kernel)
    requires k.Blank()
    modifies k`pcbFree, k`aslh, k`semdFree, k`processCount, k`softBlockCount, k`currentProcess, k`word, k.pList, k.sLink
    ensures k.Apart() && PooledLinks(k.Snap(), k.n) && k.word == Zeroed(old(k.word), k.dev, MAX_DEVICES)
    ensures k.processCount == k.softBlockCount == 0 && k.currentProcess == NULL
  {
    hide IsRing, Kernel.Core, Zeroed;
    InitPcbs(k);
    InitASL(k);
    k.processCount, k.softBlockCount, k.currentProcess := 0, 0, NULL;
    ZeroDevices(k);
  }

  /** The tables and globals of main, and what they mean (source/initial.c:57-68). */
  method InitTables(k: Kernel)
    requires k.Blank()
    modifies k, k.pList, k.sLink
    ensures k.Core() && k.counter == 0 && k.currentProcess == NULL
    ensures k.l == InitialLists(old(MachineOf(k))) && k.t == NoTree(k.n) && k.kt == seq(k.n, i => 0) && k.gt == seq(k.n, i => 0)
    ensures k.startTOD == k.kernelStart == k.pseudoStart == k.now == 0 && k.mode == Idle
  {
    hide IsRing, Kernel.Core, Kernel.Snap, PooledLinks, Zeroed;
    BuildTables(k);
    Interpret(k, old(MachineOf(k)));
  }

  // ----- the first process -------------------------------------------------------

  lemma FirstParts(mc: Machine)
    requires mc.n >= 1
    ensures var l := InitialLists(mc);
      && FreeDetached(l, NoTree(mc.n)) && l.free != [] && l.free[0] == 0
      && Is(Allocated(l), 0, Off) && ReadyWhole(Allocated(l))
  {
  }

  lemma FirstMeans(mc: Machine, base: nat, l: Lists, t: Tree)
    requires mc.n >= 1
    requires var u := Allocated(InitialLists(mc));
      l == AfterRequeue(u.(processCount := u.processCount + 1, softBlockCount := u.softBlockCount + 0), 0)
    requires var t1 := NoTree(mc.n).(pid := Put(NoTree(mc.n).pid, 0, base));
      t == t1.(pid := Put(t1.pid, 0, Pid.PidOf(base, 0)), forest := Cons(0, Nil, Nil))
    ensures var m := FirstProcess(PoweredOn(mc), base); m.l == l && m.t == t
  {
    assert Put(Put(NoTree(mc.n).pid, 0, base), 0, Pid.PidOf(base, 0)) == Put(NoTree(mc.n).pid, 0, Pid.PidOf(base, 0));
    assert Put(Put(InitialLists(mc).status, 0, Off), 0, Ready) == Put(InitialLists(mc).status, 0, Ready);
  }

  /** The first process is named and made ready (source/initial.c:74-101). */
  method LaunchFirst(k: Kernel, p: int) returns (pid: nat)
    requires k.Core() && 0 <= p < k.n && 0 <= k.t.pid[p] < Pid.WORD && k.counter < Pid.LARGEST
    requires ReadyWhole(k.l) && Is(k.l, p, Off) && k.pcbs[p].cursem == NULL
    modifies k`l, k`t, k`kt, k`gt, k`counter, k`readyQueue, k`processCount, k`softBlockCount, k.pList, k.pcbs
    ensures k.Core() && k.kt == old(k.kt) && k.gt == old(k.gt) && k.counter == old(k.counter) + 1
    ensures pid == Pid.PidOf(old(k.t.pid)[p], old(k.counter))
    ensures var l := old(k.l);
      k.l == AfterRequeue(l.(processCount := l.processCount + 1, softBlockCount := l.softBlockCount + 0), p)
    ensures k.t == old(k.t).(pid := Put(old(k.t.pid), p, pid), forest := Cons(p, Nil, Nil))
  {
    hide Kernel.Core, AfterRequeue;
    Count(k, 1, 0);
    pid := Name(k, p);
    SetForest(k, Cons(p, Nil, Nil));
    InsertReady(k, p);
  }

  /** The scheduler is told to start. */
  method Start(k: Kernel)
    requires k.Core()
    modifies k`flag, k`pseudoclockflag, k`kernelStart
    ensures k.Core()
    ensures k.Abs() == old(k.Abs()).(flag := START, pseudoclock := false, time := old(k.Abs()).time.(kernelStart := 0))
  {
    hide Rep;
    k.flag := START;
    k.pseudoclockflag := false;
    k.kernelStart := 0;
  }

  /** The tables are built, and the first PCB is allocated. */
  method FirstPcb(k: Kernel, base: int) returns (p: int)
    requires k.Blank()
    modifies k, k.pList, k.pSib, k.sLink, k.pcbs
    ensures k.Core() && p == 0 && k.n >= 1 && k.pcbs[0].cursem == NULL && |k.t.pid| == k.n
    ensures k.Abs() == FirstAllocated(old(MachineOf(k)), base).(flag := k.flag, pseudoclock := k.pseudoclockflag)
  {
    hide Kernel.Core, Allocated, ReadyWhole, InitialLists;
    FirstParts(MachineOf(k));
    InitTables(k);
    p := AllocPcb(k, base);
    if p == NULL {
      assert false;  // PANIC
    }
    CoreSized(k);
    FirstTimes(k.n);
  }

  ghost function FirstAllocated(mc: Machine, base: int): KState {
    var k := PoweredOn(mc);
    k.(l := Allocated(k.l), t := k.t.(pid := Put(k.t.pid, 0, base)))
  }

  lemma FirstTimes(n: nat)
    ensures Put(seq(n, i => 0), 0, 0) == seq(n, i => 0)
  {
  }

  /** From the static variables to the state that the scheduler starts with. */
  method Prepare(k: Kernel, base: int) returns (p: int)
    requires k.Blank() && 0 <= base < Pid.WORD
    modifies k, k.pList, k.pSib, k.sLink, k.pcbs
    ensures k.Core() && p == 0 && k.currentProcess == NULL && k.flag == START
    ensures k.Abs() == FirstProcess(PoweredOn(old(MachineOf(k))), base)
  {
    hide Kernel.Core, Allocated, AfterRequeue, ReadyWhole, InitialLists;
    ghost var mc := MachineOf(k);
    FirstParts(mc);
    p := FirstPcb(k, base);
    FirstTimes(k.n);
    var pid := LaunchFirst(k, p);
    FirstMeans(mc, base, k.l, k.t);
    Start(k);
  }

  /** main: the machine is built and the first process is loaded. */
  method Run(k: Kernel, base: int, c: Clock)
    requires k.Blank() && 0 <= base < Pid.WORD
    modifies k, k.pList, k.pSib, k.sLink, k.pcbs
    ensures k.Abs() == Booted(old(MachineOf(k)), base, c) && k.Valid(0) && Settled(k.Abs())
    ensures k.currentProcess == 0 && k.mode == Running
  {
    hide Kernel.Core, FirstProcess, PoweredOn, KInv, Settled, Model.Schedule;
    FirstKeeps(MachineOf(k), base, c);
    var p := Prepare(k, base);
    Scheduler.Schedule(k, c, 0);
  }
}
