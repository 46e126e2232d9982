/** The kill that does not end, in the kernel's memory. */
module HangInMemory {
  import opened Clist
  import opened Forests
  import opened Lists
  import opened Processes
  import opened Model
  import opened ModelInvariant
  import opened ModelRuns
  import opened SystemLaws
  import opened Memory
  import opened ReadyDescendants
  import opened ProcessTree
  import opened Termination
  import opened Scenarios
  import opened Handlers
  import Boot
  import Pid = PidGenerator

  /** The steps of HangRun, one by one. */
  lemma HangUnfolds(k: KState, b1: nat, b2: nat)
    requires Runnable(k, HangRun(b1, b2))
    ensures Possible(k, Create(b1), At(0))
    ensures var k1 := Step(k, Create(b1), At(0));
      Possible(k1, Timer, At(0)) &&
      var k2 := Step(k1, Timer, At(0));
      Possible(k2, Create(b2), At(0)) &&
      var k3 := Step(k2, Create(b2), At(0));
      Possible(k3, Timer, At(0)) && Step(k3, Timer, At(0)) == Reached(k, HangRun(b1, b2))
  {
    hide Step;
    var es := HangRun(b1, b2);
    assert es[0] == (Create(b1), At(0)) && es[1] == (Timer, At(0)) && es[2] == (Create(b2), At(0)) && es[3] == (Timer, At(0));
    assert es[1..][1..] == es[2..] && es[2..][1..] == es[3..] && es[3..][1..] == [];
    var k1 := Step(k, es[0].0, es[0].1);
    assert Runnable(k1, es[1..]) && es[1..][0] == es[1];
    var k2 := Step(k1, es[1].0, es[1].1);
    assert Runnable(k2, es[2..]) && es[2..][0] == es[2];
    var k3 := Step(k2, es[2].0, es[2].1);
    assert Runnable(k3, es[3..]) && es[3..][0] == es[3];
    var k4 := Step(k3, es[3].0, es[3].1);
    assert Reached(k3, es[3..]) == Reached(k4, es[3..][1..]) == k4;
    assert Reached(k, es) == Reached(k1, es[1..]) == Reached(k2, es[2..]) == Reached(k3, es[3..]);
  }

  lemma HangInCore(k: Kernel)
    requires k.Core() && k.l.ready == [2, 1] && Is(k.l, 2, Free) && Is(k.l, 1, Ready)
    ensures !ScanEnds(k.Snap(), 1)
  {
    HangScan(k.Snap());
  }

  lemma HangParts(k: KState, first: int)
    requires KInv(k, first) && k.l.ready == [2, 1] && |k.l.status| >= 3 && k.l.status[1] == Ready && k.l.status[2] == Ready
    requires k.t.forest == Cons(0, Cons(1, Cons(2, Nil, Nil), Nil), Nil)
    ensures TreeOk(k.t) && Below(k.t.forest, 1) == Cons(2, Nil, Nil) && Hanging(k.t, 1, Below(k.t.forest, 1))
    ensures Simple(Below(k.t.forest, 1)) && Nodes(Below(k.t.forest, 1)) == {2} && Post(Below(k.t.forest, 1)) == [2]
    ensures Doomed(k.l, {2})
  {
    hide Linked, Inv;
    assert Nodes(k.t.forest.kids) == {1, 2};
    BelowHangs(k.t, 1);
  }

  /** The first child of the first process is 1, and has that pid. */
  lemma ChildIsOne(k: Kernel, pid: int)
    requires k.Core() && KInv(k.Abs(), 0) && k.t.forest == Cons(0, Cons(1, Cons(2, Nil, Nil), Nil), Nil) && k.n >= 3
    ensures k.pSib.Length == k.pcbs.Length == k.n && 0 <= k.pcbs[0].kids < k.n && k.pSib[k.pcbs[0].kids] == 1
    ensures k.pcbs[0].pid == PidAt(k.t, 0) && k.pcbs[1].pid == PidAt(k.t, 1)
  {
    hide Inv;
    assert k.t.children[0] == Roots(k.t.forest.kids) == [1];
    SibMeans(k.Snap(), 0);
    SibMeans(k.Snap(), 1);
  }

  /** What is dead stays so, whatever the tree and the counters are. */
  lemma HangKept(l: Lists, m: Lists)
    requires l.ready == [2, 1] && Is(l, 2, Free) && Is(l, 1, Ready) && m == LeftSemaphore(l, 1)
    ensures m.ready == [2, 1] && Is(m, 2, Free) && Is(m, 1, Ready)
  {
  }

  /** TERMINATEPROCESS with the pid of process 1, from the entry of its handler
      through terminate_process and lookfor_progeny to the call of outProcQ. */
  method EnterKill(k: Kernel, pid: int)
    requires k.Valid(0) && !k.repaired && k.currentProcess == 0 && k.n >= 3 && k.l.ready == [2, 1]
    requires |k.l.status| >= 3 && k.l.status[1] == Ready && k.l.status[2] == Ready
    requires k.t.forest == Cons(0, Cons(1, Cons(2, Nil, Nil), Nil), Nil)
    requires pid != 0 && pid != PidAt(k.t, 0) && pid == PidAt(k.t, 1)
    modifies k, k.pList, k.pSib, k.pcbs, k.semds, k.sLink
    ensures k.Core() && !ScanEnds(k.Snap(), 1)
  {
    hide Kernel.Core, KInv, ScanEnds, TreeOk, Reaps, Stripped, Hanging, Kernel.Snap, LeftSemaphore, Relinked, PidAt;
    ghost var s := k.Abs();
    EnteredKeeps(s, At(0));
    Enter(k, LOADCURRENT, At(0));
    ChildIsOne(k, pid);
    HangParts(k.Abs(), 0);
    CoreSized(k);
    // terminate_process: the pid is not 0, nor that of the caller
    assert !(pid == 0 || pid == k.pcbs[k.currentProcess].pid);
    // lookfor_progeny of the caller: the scan of its children begins
    var child := k.pSib[k.pcbs[k.currentProcess].kids];
    assert child == 1;
    // lookfor_progeny of the child
    assert k.pcbs[child].pid == pid;
    KillUpToScan(k, child);
  }

  lemma EnteredKeeps(k: KState, c: Clock)
    requires KInv(k, 0)
    ensures KInv(Entered(k, LOADCURRENT, c), 0)
  {
  }

  /** The statements of lookfor_progeny for the process it found, up to outProcQ
      (source/syscall.c:76-93). */
  method KillUpToScan(k: Kernel, child: int)
    requires k.Core() && !k.repaired && child == 1 && k.n >= 3 && k.l.ready == [2, 1]
    requires |k.l.status| == |k.t.children| == k.n && k.l.status[1] == Ready && k.l.status[2] == Ready && Doomed(k.l, {2})
    requires Below(k.t.forest, 1) == Cons(2, Nil, Nil) && Hanging(k.t, 1, Cons(2, Nil, Nil))
    modifies k, k.pList, k.pSib, k.pcbs, k.semds, k.sLink
    ensures k.Core() && !ScanEnds(k.Snap(), 1)
  {
    hide Kernel.Core, ScanEnds, Reaps, Stripped, Hanging, Kernel.Snap, LeftSemaphore, Relinked;
    ghost var l := k.l;
    TwoAlone();
    TerminateChildren(k, child, child, Cons(2, Nil, Nil));
    assert [2] + [] == [2];
    ReapsFree(l, [2]);
    ghost var l1 := k.l;
    LeaveSemaphore(k, child);
    HangKept(l1, k.l);
    Count(k, -1, 0);
    CoreSized(k);
    var r := OutChild(k, child);
    HangInCore(k);
  }

  lemma TwoAlone()
    ensures var g := Cons(2, Nil, Nil); Simple(g) && Nodes(g) == {2} && Post(g) == [2]
  {
    assert Nodes(Nil) == {} && Post(Nil) == [];
  }

  /** The same run in memory, from power-on to that call, which does not end. */
  method RunToHang(k: Kernel, base: nat, b1: nat, b2: nat)
    requires k.Blank() && k.n >= 3 && !k.repaired && base < Pid.WORD && b1 < Pid.WORD && b2 < Pid.WORD
    requires Pid.PidOf(b1, 1) != 0 && Pid.PidOf(b1, 1) != Pid.PidOf(base, 0)
    modifies k, k.pList, k.pSib, k.sLink, k.pcbs, k.semds
    ensures k.Core() && !ScanEnds(k.Snap(), 1)
  {
    hide Kernel.Core, KInv, Settled, Possible, Step, Booted, Runnable, Reached, ScanEnds, Kernel.Snap, Pid.PidOf, PidAt;
    ghost var mc := Boot.MachineOf(k);
    HangReached(mc, base, b1, b2);
    HangUnfolds(Booted(mc, base, At(0)), b1, b2);
    Boot.Run(k, base, At(0));
    SyscallHandler(k, Create(b1), At(0), 0);
    InterruptHandler(k, Timer, At(0), 0);
    SyscallHandler(k, Create(b2), At(0), 0);
    InterruptHandler(k, Timer, At(0), 0);
    EnterKill(k, Pid.PidOf(b1, 1));
  }
}
