/** What the kernel's lists say, without their links: where every process is,
    the order of each queue, the semaphore words and the two counters; and the
    elementary operations the system calls and handlers are made of.
 */
module Lists {
  import opened Clist

  /** Where a PCB is.  Off: in no list, as the running process is. */
  datatype Status = Free | Ready | Off | Blocked(addr: int)

  datatype Lists = Lists(
    dev: int,                   // address of device_sem[0]
    free: seq<int>,             // pcbFree
    ready: seq<int>,            // readyqueue
    queue: map<int, seq<int>>,  // the active semaphores: address to blocked processes
    status: seq<Status>,
    need: seq<int>,             // res_wait of every process
    sem: map<int, int>,         // semaphore words; an address not listed holds 0
    processCount: int,
    softBlockCount: int)

  const MAX_DEVICES := 49

  predicate IsDevice(l: Lists, a: int) {
    l.dev <= a <= l.dev + MAX_DEVICES - 1
  }

  function Val(sem: map<int, int>, a: int): int {
    if a in sem then sem[a] else 0
  }

  function QueueAt(queue: map<int, seq<int>>, a: int): seq<int> {
    if a in queue then queue[a] else []
  }

  /** An active semaphore has a non-empty queue; an empty one is not active. */
  function SetQueue(queue: map<int, seq<int>>, a: int, q: seq<int>): map<int, seq<int>> {
    if q == [] then queue - {a} else queue[a := q]
  }

  function NeedOf(need: seq<int>, p: int): int {
    if 0 <= p < |need| then need[p] else 0
  }

  /** What the processes of q wait for, together. */
  function Demand(need: seq<int>, q: seq<int>): int {
    if q == [] then 0 else Demand(need, q[1..]) - NeedOf(need, q[0])
  }

  /** What a semaphore could still grant: its value, had nobody queued. */
  function Avail(l: Lists, a: int): int {
    Val(l.sem, a) + Demand(l.need, QueueAt(l.queue, a))
  }

  // ----- moves between lists ----------------------------------------------

  function Put<T>(s: seq<T>, i: int, v: T): seq<T> {
    if 0 <= i < |s| then s[i := v] else s
  }

  /** p joins the queue of a (insertBlocked). */
  function Enqueued(l: Lists, p: int, a: int): Lists {
    l.(queue := l.queue[a := QueueAt(l.queue, a) + [p]], status := Put(l.status, p, Blocked(a)))
  }

  /** p leaves the queue of a (outBlocked). */
  ghost function Unlinked(l: Lists, p: int, a: int): Lists {
    l.(queue := SetQueue(l.queue, a, Without(QueueAt(l.queue, a), p)), status := Put(l.status, p, Off))
  }

  // ----- the elementary operations -----------------------------------------

  datatype Op =
    | Request(p: int, a: int, w: int)  // passeren by p, w < 0
    | Release(a: int, w: int)          // verhogen, w > 0
    | Reap(p: int)                     // a descendant of a killed process dies
    | Kill(p: int)                     // the killed process itself dies
    | Spawn                            // a PCB is allocated and made ready
    | Requeue(p: int)                  // the running process goes to the ready queue
    | Dispatch                         // the head of the ready queue is taken off

  /** passeren: take w, or queue for it (source/syscall.c:182-200). */
  function AfterRequest(l: Lists, p: int, a: int, w: int): Lists {
    var v := Val(l.sem, a) + w;
    if v < 0 then
      Enqueued(l, p, a).(sem := l.sem[a := v], need := Put(l.need, p, w), softBlockCount := l.softBlockCount + 1)
    else
      l.(sem := l.sem[a := v])
  }

  /** The head of the queue of a becomes ready (source/syscall.c:224-228). */
  function WakeOne(l: Lists, a: int): Lists {
    var q := QueueAt(l.queue, a);
    if q == [] then l
    else
      l.(queue := SetQueue(l.queue, a, q[1..]), softBlockCount := l.softBlockCount - 1,
         need := Put(l.need, q[0], 0), ready := l.ready + [q[0]], status := Put(l.status, q[0], Ready))
  }

  /** The loop of verhogen, with `sum` units to hand out (source/syscall.c:221-229). */
  function Wake(l: Lists, a: int, sum: int): (m: Lists)
    ensures m.sem == l.sem && m.dev == l.dev && m.free == l.free
    decreases |QueueAt(l.queue, a)|
  {
    var q := QueueAt(l.queue, a);
    if q != [] && NeedOf(l.need, q[0]) >= -sum && sum != 0 then Wake(WakeOne(l, a), a, sum + NeedOf(l.need, q[0]))
    else l
  }

  /** verhogen (source/syscall.c:204-230). */
  function AfterRelease(l: Lists, a: int, w: int): Lists {
    var l1 := l.(sem := l.sem[a := Val(l.sem, a) + w]);
    Wake(l1, a, Avail(l1, a))
  }

  /** A dying process leaves its semaphore: the value is given back what it
      waited for, unless a device owns the semaphore (source/syscall.c:151-161). */
  ghost function Unblocked(l: Lists, p: int, a: int): Lists {
    Unlinked(l, p, a).(
      sem := if IsDevice(l, a) then l.sem else l.sem[a := Val(l.sem, a) - NeedOf(l.need, p)],
      softBlockCount := l.softBlockCount - 1)
  }

  /** The body of terminate_children for p (source/syscall.c:148-165).  It does
      not look at the ready queue. */
  ghost function AfterReap(l: Lists, p: int): Lists {
    var l1 := if 0 <= p < |l.status| && l.status[p].Blocked? then Unblocked(l, p, l.status[p].addr) else l;
    l1.(processCount := l.processCount - 1, free := l.free + [p], status := Put(l1.status, p, Free))
  }

  /** The killed process itself: as a reaped one, and the ready queue is
      searched for it (source/syscall.c:80-95, 116-120). */
  ghost function AfterKill(l: Lists, p: int): Lists {
    AfterReap(l, p).(ready := Without(l.ready, p))
  }

  /** create_process and main take the head of the free list (source/syscall.c:40-56). */
  function AfterSpawn(l: Lists): Lists {
    if l.free == [] then l
    else
      l.(free := l.free[1..], ready := l.ready + [l.free[0]], status := Put(l.status, l.free[0], Ready),
         need := Put(l.need, l.free[0], 0), processCount := l.processCount + 1)
  }

  /** allocPcb: the head of the free list is taken off and cleared. */
  function Allocated(l: Lists): Lists {
    l.(free := Rest(l.free), status := Put(l.status, Head(l.free), Off), need := Put(l.need, Head(l.free), 0))
  }

  function AfterRequeue(l: Lists, p: int): Lists {
    l.(ready := l.ready + [p], status := Put(l.status, p, Ready))
  }

  function AfterDispatch(l: Lists): Lists {
    l.(ready := Rest(l.ready), status := Put(l.status, Head(l.ready), Off))
  }

  ghost function Apply(l: Lists, op: Op): Lists {
    match op
    case Request(p, a, w) => AfterRequest(l, p, a, w)
    case Release(a, w) => AfterRelease(l, a, w)
    case Reap(p) => AfterReap(l, p)
    case Kill(p) => AfterKill(l, p)
    case Spawn => AfterSpawn(l)
    case Requeue(p) => AfterRequeue(l, p)
    case Dispatch => AfterDispatch(l)
  }

  predicate Is(l: Lists, p: int, st: Status) {
    0 <= p < |l.status| && l.status[p] == st
  }

  predicate IsBlocked(l: Lists, p: int) {
    0 <= p < |l.status| && l.status[p].Blocked?
  }

  /** When the kernel performs an operation.  A reaped process is blocked: see
      ReapPreservesInvIff for one that is ready. */
  predicate Enabled(l: Lists, op: Op) {
    match op
    case Request(p, _, w) => Is(l, p, Off) && w < 0
    case Release(_, w) => w > 0
    case Reap(p) => IsBlocked(l, p)
    case Kill(p) => 0 <= p < |l.status| && l.status[p] != Free
    case Spawn => l.free != []
    case Requeue(p) => Is(l, p, Off)
    case Dispatch => l.ready != []
  }

  // ----- the partition -----------------------------------------------------

  /** The free list and the semaphore queues hold, once, exactly the PCBs whose
      status says so. */
  ghost predicate QueuesPlaced(l: Lists) {
    && |l.need| == |l.status|
    && Distinct(l.free)
    && (forall p {:trigger p in l.free} :: p in l.free ==> Is(l, p, Free))
    && (forall p {:trigger l.status[p]} :: 0 <= p < |l.status| ==>
         && (l.status[p] == Free ==> p in l.free)
         && (l.status[p].Blocked? ==> p in QueueAt(l.queue, l.status[p].addr)))
    && (forall a {:trigger a in l.queue} :: a in l.queue ==> Distinct(l.queue[a]) && l.queue[a] != [])
    && (forall a, p {:trigger p in l.queue[a]} :: a in l.queue && p in l.queue[a] ==> Is(l, p, Blocked(a)))
  }

  /** Every PCB is in exactly the list its status names, once. */
  ghost predicate Placed(l: Lists) {
    && QueuesPlaced(l)
    && Distinct(l.ready)
    && (forall p {:trigger p in l.ready} :: p in l.ready ==> Is(l, p, Ready))
    && (forall p {:trigger l.status[p]} :: 0 <= p < |l.status| && l.status[p] == Ready ==> p in l.ready)
  }

  ghost function Live(l: Lists): set<int> {
    set p | 0 <= p < |l.status| && l.status[p] != Free
  }

  ghost function Waiting(l: Lists): set<int> {
    set p | 0 <= p < |l.status| && l.status[p].Blocked?
  }

  /** The partition, the two counters, and res_wait < 0 for who waits. */
  ghost predicate Inv(l: Lists) {
    && Placed(l)
    && l.processCount == |Live(l)| && l.softBlockCount == |Waiting(l)|
    && forall p {:trigger l.need[p]} :: IsBlocked(l, p) ==> l.need[p] < 0
  }

  // ----- every operation keeps it ------------------------------------------

  lemma CountWithout(s: set<int>, t: set<int>, p: int)
    requires s - {p} == t - {p}
    ensures |t| + (if p in s then 1 else 0) == |s| + (if p in t then 1 else 0)
  {
    assert s == if p in s then (s - {p}) + {p} else s - {p};
    assert t == if p in t then (t - {p}) + {p} else t - {p};
  }

  /** Two states whose processes differ in the place of p only. */
  lemma CountsAfter(l: Lists, m: Lists, p: int)
    requires 0 <= p < |l.status| == |m.status| && m.status == l.status[p := m.status[p]]
    ensures |Live(m)| == |Live(l)| + (if m.status[p] == Free then 0 else 1) - (if l.status[p] == Free then 0 else 1)
    ensures |Waiting(m)| == |Waiting(l)| + (if m.status[p].Blocked? then 1 else 0) - (if l.status[p].Blocked? then 1 else 0)
  {
    CountWithout(Live(l), Live(m), p);
    CountWithout(Waiting(l), Waiting(m), p);
  }

  lemma TailMembers(q: seq<int>)
    requires Distinct(q) && q != []
    ensures Distinct(q[1..]) && forall x :: x in q[1..] <==> x in q && x != q[0]
  {
    DistinctTail(q);
  }

  /** p, which is in no list, joins the queue of a. */
  lemma EnqueuePlaced(l: Lists, p: int, a: int)
    requires Placed(l) && Is(l, p, Off)
    ensures Placed(Enqueued(l, p, a))
  {
    var q := QueueAt(l.queue, a);
    assert p !in q;
    DistinctConcat(q, [p]);
  }

  /** The partition does not depend on needs, values and counts. */
  lemma PlacedFrame(l: Lists, m: Lists)
    requires Placed(l) && m.free == l.free && m.ready == l.ready && m.queue == l.queue && m.status == l.status && |m.need| == |l.need|
    ensures Placed(m)
  {
  }

  lemma {:induction false} RequestKeeps(l: Lists, p: int, a: int, w: int)
    requires Inv(l) && Is(l, p, Off) && w < 0
    ensures Inv(AfterRequest(l, p, a, w))
  {
    hide Placed;
    var m := AfterRequest(l, p, a, w);
    if Val(l.sem, a) + w < 0 {
      EnqueuePlaced(l, p, a);
      PlacedSizes(l);
      PlacedFrame(Enqueued(l, p, a), m);
      CountsAfter(l, m, p);
    } else {
      PlacedFrame(l, m);
      assert Live(m) == Live(l) && Waiting(m) == Waiting(l);
    }
  }

  lemma PlacedSizes(l: Lists)
    requires Placed(l)
    ensures |l.need| == |l.status|
  {
  }

  lemma {:induction false} WakeOneKeeps(l: Lists, a: int)
    requires Inv(l) && QueueAt(l.queue, a) != []
    ensures Inv(WakeOne(l, a))
  {
    var m, q := WakeOne(l, a), QueueAt(l.queue, a);
    var p := q[0];
    assert p in l.queue[a];
    CountsAfter(l, m, p);
    TailMembers(q);
    DistinctConcat(l.ready, [p]);
  }

  lemma {:induction false} WakeKeeps(l: Lists, a: int, sum: int)
    requires Inv(l)
    ensures Inv(Wake(l, a, sum))
    decreases |QueueAt(l.queue, a)|
  {
    var q := QueueAt(l.queue, a);
    if q != [] && NeedOf(l.need, q[0]) >= -sum && sum != 0 {
      WakeOneKeeps(l, a);
      WakeKeeps(WakeOne(l, a), a, sum + NeedOf(l.need, q[0]));
    }
  }

  lemma {:induction false} UnlinkedKeepsPlaced(l: Lists, p: int, a: int)
    requires Placed(l) && Is(l, p, Blocked(a))
    ensures Placed(Unlinked(l, p, a))
  {
    var q := QueueAt(l.queue, a);
    WithoutDistinct(q, p);
  }

  /** p, which is in no list, becomes free. */
  lemma FreedPlaced(l: Lists, p: int)
    requires Placed(l) && Is(l, p, Off)
    ensures Placed(l.(free := l.free + [p], status := l.status[p := Free]))
  {
    DistinctConcat(l.free, [p]);
  }

  lemma ReapPlaced(l: Lists, p: int)
    requires Placed(l) && 0 <= p < |l.status| && l.status[p] != Free && l.status[p] != Ready
    ensures Placed(AfterReap(l, p))
  {
    hide Placed;
    var m := AfterReap(l, p);
    if l.status[p].Blocked? {
      var l1 := Unlinked(l, p, l.status[p].addr);
      UnlinkedKeepsPlaced(l, p, l.status[p].addr);
      FreedPlaced(l1, p);
      PlacedFrame(l1.(free := l1.free + [p], status := l1.status[p := Free]), m);
    } else {
      FreedPlaced(l, p);
      PlacedFrame(l.(free := l.free + [p], status := l.status[p := Free]), m);
    }
  }

  lemma {:induction false} ReapKeeps(l: Lists, p: int)
    requires Inv(l) && 0 <= p < |l.status| && l.status[p] != Free && l.status[p] != Ready
    ensures Inv(AfterReap(l, p))
  {
    hide Placed;
    ReapPlaced(l, p);
    CountsAfter(l, AfterReap(l, p), p);
  }

  lemma NotReadyOff(l: Lists, p: int)
    requires Inv(l) && 0 <= p < |l.status| && l.status[p] != Ready
    ensures p !in l.ready && AfterReap(l, p).ready == l.ready
  {
  }

  lemma ReadyKillKeeps(l: Lists, p: int)
    requires Inv(l) && 0 <= p < |l.status| && l.status[p] == Ready
    ensures Inv(AfterKill(l, p))
  {
    CountsAfter(l, AfterKill(l, p), p);
    DistinctConcat(l.free, [p]);
    WithoutDistinct(l.ready, p);
  }

  lemma {:induction false} KillKeeps(l: Lists, p: int)
    requires Inv(l) && 0 <= p < |l.status| && l.status[p] != Free
    ensures Inv(AfterKill(l, p))
  {
    if l.status[p] == Ready {
      ReadyKillKeeps(l, p);
    } else {
      hide Inv, AfterReap;
      ReapKeeps(l, p);
      NotReadyOff(l, p);
      assert AfterKill(l, p) == AfterReap(l, p);
    }
  }

  lemma {:induction false} SpawnKeeps(l: Lists)
    requires Inv(l) && l.free != []
    ensures Inv(AfterSpawn(l))
  {
    var p := l.free[0];
    assert p in l.free;
    CountsAfter(l, AfterSpawn(l), p);
    TailMembers(l.free);
    DistinctConcat(l.ready, [p]);
  }

  lemma {:induction false} RequeueKeeps(l: Lists, p: int)
    requires Inv(l) && Is(l, p, Off)
    ensures Inv(AfterRequeue(l, p))
  {
    CountsAfter(l, AfterRequeue(l, p), p);
    DistinctConcat(l.ready, [p]);
  }

  lemma {:induction false} DispatchKeeps(l: Lists)
    requires Inv(l) && l.ready != []
    ensures Inv(AfterDispatch(l))
  {
    assert l.ready[0] in l.ready;
    CountsAfter(l, AfterDispatch(l), l.ready[0]);
    TailMembers(l.ready);
  }

  /** The partition and the counters survive every operation. */
  lemma {:induction false} InvPreserved(l: Lists, op: Op)
    requires Inv(l) && Enabled(l, op)
    ensures Inv(Apply(l, op))
  {
    match op
    case Request(p, a, w) => RequestKeeps(l, p, a, w);
    case Release(a, w) =>
      var l1 := l.(sem := l.sem[a := Val(l.sem, a) + w]);
      assert Live(l1) == Live(l) && Waiting(l1) == Waiting(l);
      WakeKeeps(l1, a, Avail(l1, a));
    case Reap(p) => ReapKeeps(l, p);
    case Kill(p) => KillKeeps(l, p);
    case Spawn => SpawnKeeps(l);
    case Requeue(p) => RequeueKeeps(l, p);
    case Dispatch => DispatchKeeps(l);
  }

  /** terminate_children leaves the partition intact iff the process it frees
      was not in the ready queue. */
  lemma {:induction false} ReapPreservesInvIff(l: Lists, p: int)
    requires Inv(l) && 0 <= p < |l.status| && l.status[p] != Free
    ensures Inv(AfterReap(l, p)) <==> p !in l.ready
  {
    if l.status[p] != Ready {
      ReapKeeps(l, p);
    } else {
      assert p in AfterReap(l, p).ready && !Is(AfterReap(l, p), p, Ready);
    }
  }
}
