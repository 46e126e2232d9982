/** The kernel's memory: the static tables of pcb.c and asl.c and the globals
    of initial.c, and what its links mean.  A pointer is an index or NULL; a
    list entry point holds the index of the tail.
 */
module Memory {
  import opened Clist
  import opened Forests
  import opened Lists
  import opened Processes
  import opened Model

  /** struct pcb_t, without p_list and p_siblings, which are link tables. */
  datatype Pcb = Pcb(
    parent: int, cursem: int, kids: int, pid: int, resWait: int, kernelTime: int, globalTime: int)

  /** struct semd_t, without s_link. */
  datatype Semd = Semd(semAdd: int, procq: int)

  // ----- what the tables mean -----------------------------------------------------

  /** q was a ring, and the members that are still ready are still linked: a
      process freed while it is ready takes its link with it. */
  ghost predicate StillLinked(next: seq<int>, tail: int, q: seq<int>, status: seq<Status>) {
    && |status| == |next|
    && (forall i {:trigger q[i]} :: 0 <= i < |q| ==> 0 <= q[i] < |next|)
    && Distinct(q)
    && tail == (if q == [] then NULL else q[|q| - 1])
    && (forall i {:trigger After(q, i)} :: 0 <= i < |q| && status[q[i]] == Ready ==> next[q[i]] == After(q, i))
  }

  ghost predicate FieldsRep(ps: seq<Pcb>, need: seq<int>, t: Tree, kt: seq<int>, gt: seq<int>) {
    && |ps| == |need| == |t.parent| == |t.pid| == |kt| == |gt|
    && forall p {:trigger ps[p]} :: 0 <= p < |ps| ==>
         ps[p].resWait == need[p] && ps[p].parent == t.parent[p] && ps[p].pid == t.pid[p] &&
         ps[p].kernelTime == kt[p] && ps[p].globalTime == gt[p]
  }

  /** Every child list is a ring of the sibling links. */
  ghost predicate KidsRep(ps: seq<Pcb>, sib: seq<int>, children: seq<seq<int>>) {
    |children| == |ps| && forall p {:trigger children[p]} :: 0 <= p < |ps| ==> IsRing(sib, ps[p].kids, children[p])
  }

  /** The addresses of the listed descriptors ascend. */
  ghost predicate Sorted(sd: seq<Semd>, asl: seq<int>) {
    forall i, j {:trigger asl[i], asl[j]} :: 0 <= i < j < |asl| && 0 <= asl[i] < |sd| && 0 <= asl[j] < |sd| ==>
      sd[asl[i]].semAdd < sd[asl[j]].semAdd
  }

  /** The descriptors are parted between the ASL, sorted by address, and semdFree. */
  ghost predicate AslRep(sl: seq<int>, sd: seq<Semd>, aslh: int, semdFree: int, asl: seq<int>, sfree: seq<int>) {
    && |sd| == |sl|
    && IsRing(sl, aslh, asl) && IsRing(sl, semdFree, sfree)
    && (forall d {:trigger d in asl} {:trigger d in sfree} :: 0 <= d < |sd| ==> (d in asl) != (d in sfree))
    && Sorted(sd, asl)
    && (forall d {:trigger d in sfree} :: d in sfree ==> sd[d].procq == NULL)
  }

  /** The active descriptors are the active semaphores, with their queues. */
  ghost predicate QueueRep(pl: seq<int>, sd: seq<Semd>, asl: seq<int>, owner: map<int, int>, queue: map<int, seq<int>>) {
    && owner.Keys == queue.Keys
    && (forall d {:trigger d in asl} :: d in asl ==>
         && 0 <= d < |sd| && sd[d].semAdd in queue && owner[sd[d].semAdd] == d
         && IsRing(pl, sd[d].procq, queue[sd[d].semAdd]))
    && (forall a {:trigger owner[a]} :: a in owner ==> owner[a] in asl && sd[owner[a]].semAdd == a)
  }

  /** p_cursem of a blocked process is the descriptor it queues at; that of a
      ready one is NULL. */
  ghost predicate CursemRep(ps: seq<Pcb>, owner: map<int, int>, status: seq<Status>) {
    && |ps| == |status|
    && forall p {:trigger status[p]} :: 0 <= p < |ps| ==>
         && (status[p].Blocked? ==> status[p].addr in owner && ps[p].cursem == owner[status[p].addr])
         && (status[p] == Ready ==> ps[p].cursem == NULL)
  }

  /** The tables and entry points, with their meaning. */
  datatype Mem = Mem(
    pl: seq<int>, sib: seq<int>, sl: seq<int>, ps: seq<Pcb>, sd: seq<Semd>,
    pcbFree: int, readyQueue: int, aslh: int, semdFree: int,
    l: Lists, t: Tree, asl: seq<int>, sfree: seq<int>, owner: map<int, int>, kt: seq<int>, gt: seq<int>)

  ghost predicate Sized(m: Mem) {
    |m.pl| == |m.sib| == |m.sl| == |m.ps| == |m.sd| == |m.l.status|
  }

  /** The tables hold together and mean l and t.  (The conjunction is named so
      that it is proved as a whole.) */
  ghost predicate Rep(m: Mem) {
    var whole :=
      && Sized(m)
      && QueuesPlaced(m.l)
      && Linked(m.t, |m.pl|)
      && IsRing(m.pl, m.pcbFree, m.l.free)
      && StillLinked(m.pl, m.readyQueue, m.l.ready, m.l.status)
      && AslRep(m.sl, m.sd, m.aslh, m.semdFree, m.asl, m.sfree)
      && QueueRep(m.pl, m.sd, m.asl, m.owner, m.l.queue)
      && FieldsRep(m.ps, m.l.need, m.t, m.kt, m.gt)
      && KidsRep(m.ps, m.sib, m.t.children)
      && CursemRep(m.ps, m.owner, m.l.status);
    whole
  }

  /** Nobody in the ready queue was freed. */
  ghost predicate ReadyWhole(l: Lists) {
    forall p {:trigger p in l.ready} :: p in l.ready ==> Is(l, p, Ready)
  }

  /** The running process waits for no semaphore. */
  predicate CurrentClear(ps: seq<Pcb>, current: int) {
    0 <= current < |ps| ==> ps[current].cursem == NULL
  }

  class Kernel {
    const n: nat      // MAXPROC
    const dev: int    // address of device_sem[0]
    const repaired: bool  // see Model.KState

    // struct pcb_t pcbs[MAXPROC], struct semd_t semdTable[MAXPROC]
    const pList: array<int>
    const pSib: array<int>
    const pcbs: array<Pcb>
    const sLink: array<int>
    const semds: array<Semd>

    var pcbFree: int
    var readyQueue: int
    var aslh: int
    var semdFree: int
    var word: map<int, int>   // the semaphore words
    var processCount: int
    var softBlockCount: int
    var currentProcess: int
    var flag: Flag
    var pseudoclockflag: bool
    var counter: nat
    var startTOD: int
    var kernelStart: int
    var pseudoStart: int
    var mode: Mode

    // what the above means
    ghost var l: Lists
    ghost var t: Tree
    ghost var asl: seq<int>
    ghost var sfree: seq<int>
    ghost var owner: map<int, int>
    ghost var kt: seq<int>
    ghost var gt: seq<int>
    ghost var now: int

    /** The static variables before main; user programs initialise their
        semaphores statically, so the words are whatever they are. */
    ghost predicate Blank()
      reads this, pList, pSib, sLink, pcbs, semds
    {
      && Apart() && n >= 1 && dev > 0
      && pcbFree == readyQueue == aslh == semdFree == NULL && counter == 0
      && startTOD == kernelStart == pseudoStart == now == 0 && mode == Idle
      && forall i :: 0 <= i < n ==> pSib[i] == NULL && pcbs[i] == Pcb(NULL, NULL, NULL, 0, 0, 0, 0) && semds[i] == Semd(0, NULL)
    }

    /** Static storage is zero, but for semaphores initialised otherwise. */
    constructor (maxproc: nat, deviceSem: int, words: map<int, int>, fixed: bool)
      requires maxproc >= 1 && deviceSem > 0
      ensures Blank() && n == maxproc && dev == deviceSem && word == words && repaired == fixed
      ensures fresh(pList) && fresh(pSib) && fresh(sLink) && fresh(pcbs) && fresh(semds)
    {
      n, dev, repaired := maxproc, deviceSem, fixed;
      pList := new int[maxproc](_ => NULL);
      pSib := new int[maxproc](_ => NULL);
      sLink := new int[maxproc](_ => NULL);
      pcbs := new Pcb[maxproc](_ => Pcb(NULL, NULL, NULL, 0, 0, 0, 0));
      semds := new Semd[maxproc](_ => Semd(0, NULL));
      pcbFree, readyQueue, aslh, semdFree, currentProcess := NULL, NULL, NULL, NULL, NULL;
      word, counter, processCount, softBlockCount := words, 0, 0, 0;
      flag, pseudoclockflag, mode := START, false, Idle;
      startTOD, kernelStart, pseudoStart, now := 0, 0, 0, 0;
    }

    /** The tables, and what they mean, as one value. */
    ghost function Snap(): Mem
      reads this, pList, pSib, sLink, pcbs, semds
    {
      Mem(pList[..], pSib[..], sLink[..], pcbs[..], semds[..], pcbFree, readyQueue, aslh, semdFree,
        l, t, asl, sfree, owner, kt, gt)
    }

    /** The tables are separate. */
    ghost predicate Apart() {
      && pList.Length == pSib.Length == sLink.Length == n && pcbs.Length == n && semds.Length == n
      && pList != pSib && pList != sLink && pSib != sLink
    }

    ghost predicate CountsOk()
      reads this
    {
      l.sem == word && l.processCount == processCount && l.softBlockCount == softBlockCount && l.dev == dev
    }

    /** The state of the kernel, as the model sees it. */
    ghost function Abs(): KState
      reads this
    {
      KState(l, t, currentProcess, flag, pseudoclockflag, counter, mode,
        Times(kt, gt, startTOD, kernelStart, pseudoStart, now), repaired)
    }

    /** The memory represents a state that satisfies the invariant. */
    ghost predicate Valid(first: int)
      reads this, pList, pSib, sLink, pcbs, semds
    {
      Core() && KInv(Abs(), first) && CurrentClear(pcbs[..], currentProcess)
    }

    /** The meaning of the lists and of the ASL is set anew. */
    ghost method Means(l': Lists, asl': seq<int>, sfree': seq<int>, owner': map<int, int>)
      modifies this`l, this`asl, this`sfree, this`owner
      ensures l == l' && asl == asl' && sfree == sfree' && owner == owner'
    {
      l, asl, sfree, owner := l', asl', sfree', owner';
    }

    /** The memory represents l and t. */
    ghost predicate Core()
      reads this, pList, pSib, sLink, pcbs, semds
    {
      Apart() && CountsOk() && Rep(Snap())
    }
  }

  lemma CoreReady(k: Kernel)
    requires k.Core()
    ensures Distinct(k.l.ready)
  {
  }

  /** Sizes, which hold in every state the memory represents. */
  lemma CoreSized(k: Kernel)
    requires k.Core()
    ensures k.n == k.pcbs.Length == k.pList.Length == |k.l.status| == |k.t.parent| == |k.t.children| == |k.t.pid|
    ensures k.pList != k.pSib && k.pList != k.sLink && k.pSib != k.sLink
  {
  }
}
