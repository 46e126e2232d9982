/** Laws of the weighted semaphores: what verhogen wakes, what is conserved,
    and in which order requests are granted, over arbitrary runs.
 */
module Semaphores {
  import opened Clist
  import opened Lists

  // ----- demand ------------------------------------------------------------

  lemma {:induction false} DemandConcat(need: seq<int>, q: seq<int>, r: seq<int>)
    ensures Demand(need, q + r) == Demand(need, q) + Demand(need, r)
  {
    if q == [] {
      assert q + r == r;
    } else {
      assert (q + r)[1..] == q[1..] + r;
      DemandConcat(need, q[1..], r);
    }
  }

  lemma {:induction false} DemandSplit(need: seq<int>, q: seq<int>, k: nat)
    requires k <= |q|
    ensures Demand(need, q) == Demand(need, q[..k]) + Demand(need, q[k..])
  {
    DemandConcat(need, q[..k], q[k..]);
    assert q[..k] + q[k..] == q;
  }

  lemma {:induction false} DemandAdd(need: seq<int>, q: seq<int>, p: int)
    ensures Demand(need, q + [p]) == Demand(need, q) - NeedOf(need, p)
  {
    DemandConcat(need, q, [p]);
    assert [p][1..] == [];
  }

  lemma {:induction false} DemandFrame(need: seq<int>, need': seq<int>, q: seq<int>)
    requires forall p :: p in q ==> NeedOf(need, p) == NeedOf(need', p)
    ensures Demand(need, q) == Demand(need', q)
  {
    if q != [] {
      DemandFrame(need, need', q[1..]);
    }
  }

  lemma {:induction false} DemandWithout(need: seq<int>, q: seq<int>, p: int)
    requires Distinct(q) && p in q
    ensures Demand(need, Without(q, p)) == Demand(need, q) + NeedOf(need, p)
  {
    WithoutTail(q, p);
    if q[0] != p {
      DistinctTail(q);
      DemandWithout(need, q[1..], p);
      assert ([q[0]] + Without(q[1..], p))[1..] == Without(q[1..], p);
    }
  }

  lemma {:induction false} DemandPositive(need: seq<int>, q: seq<int>)
    requires forall p :: p in q ==> NeedOf(need, p) < 0
    ensures Demand(need, q) >= |q|
    ensures q != [] ==> Demand(need, q) >= -NeedOf(need, q[0])
  {
    if q != [] {
      DemandPositive(need, q[1..]);
    }
  }

  /** Whoever queues at a waits for something. */
  lemma QueueNeeds(l: Lists, a: int)
    requires Inv(l)
    ensures Distinct(QueueAt(l.queue, a))
    ensures forall p :: p in QueueAt(l.queue, a) ==> Is(l, p, Blocked(a)) && NeedOf(l.need, p) < 0
  {
    forall p | p in QueueAt(l.queue, a)
      ensures Is(l, p, Blocked(a)) && NeedOf(l.need, p) < 0
    {
      assert p in l.queue[a];
      assert IsBlocked(l, p) ==> l.need[p] < 0;
    }
  }

  // ----- verhogen wakes the longest prefix that fits ------------------------

  /** How many processes the loop of verhogen wakes. */
  function WakeCount(need: seq<int>, q: seq<int>, sum: int): (k: nat)
    ensures k <= |q|
  {
    if q != [] && NeedOf(need, q[0]) >= -sum && sum != 0 then 1 + WakeCount(need, q[1..], sum + NeedOf(need, q[0]))
    else 0
  }

  /** The first k processes queued at a become ready, all at once, in order. */
  function Woken(l: Lists, a: int, k: nat): Lists
    requires k <= |QueueAt(l.queue, a)|
  {
    var q := QueueAt(l.queue, a);
    l.(queue := if k == 0 then l.queue else SetQueue(l.queue, a, q[k..]),
       ready := l.ready + q[..k],
       status := seq(|l.status|, i requires 0 <= i < |l.status| => if i in q[..k] then Ready else l.status[i]),
       need := seq(|l.need|, i requires 0 <= i < |l.need| => if i in q[..k] then 0 else l.need[i]),
       softBlockCount := l.softBlockCount - k)
  }

  lemma WokenNext(l: Lists, a: int, k: nat)
    requires k < |QueueAt(l.queue, a)|
    ensures QueueAt(WakeOne(l, a).queue, a) == QueueAt(l.queue, a)[1..]
    ensures Woken(WakeOne(l, a), a, k) == Woken(l, a, k + 1)
  {
    var q := QueueAt(l.queue, a);
    var m := WakeOne(l, a);
    var r := q[1..];
    assert QueueAt(m.queue, a) == r;
    assert r[k..] == q[k + 1..];
    assert q[..k + 1] == [q[0]] + r[..k];
    WokenFields(l, m, q, r, k, Woken(m, a, k), Woken(l, a, k + 1));
    assert Woken(m, a, k).queue == Woken(l, a, k + 1).queue;
  }

  lemma WokenFields(l: Lists, m: Lists, q: seq<int>, r: seq<int>, k: nat, u: Lists, v: Lists)
    requires k < |q| && r == q[1..] && q[..k + 1] == [q[0]] + r[..k]
    requires m.ready == l.ready + [q[0]] && u.ready == m.ready + r[..k] && v.ready == l.ready + q[..k + 1]
    requires m.status == Put(l.status, q[0], Ready) && m.need == Put(l.need, q[0], 0)
    requires |u.status| == |v.status| == |l.status| && |u.need| == |v.need| == |l.need|
    requires forall i {:trigger u.status[i]} :: 0 <= i < |u.status| ==> u.status[i] == if i in r[..k] then Ready else m.status[i]
    requires forall i {:trigger v.status[i]} :: 0 <= i < |v.status| ==> v.status[i] == if i in q[..k + 1] then Ready else l.status[i]
    requires forall i {:trigger u.need[i]} :: 0 <= i < |u.need| ==> u.need[i] == if i in r[..k] then 0 else m.need[i]
    requires forall i {:trigger v.need[i]} :: 0 <= i < |v.need| ==> v.need[i] == if i in q[..k + 1] then 0 else l.need[i]
    ensures u.ready == v.ready && u.status == v.status && u.need == v.need
  {
    assert forall i :: i in q[..k + 1] <==> i == q[0] || i in r[..k];
  }

  /** The head of the queue of a is made ready k times. */
  function WakeMany(l: Lists, a: int, k: nat): Lists
    decreases k
  {
    if k == 0 then l else WakeMany(WakeOne(l, a), a, k - 1)
  }

  lemma {:induction false} WokenIsWakeMany(l: Lists, a: int, k: nat)
    requires k <= |QueueAt(l.queue, a)|
    ensures Woken(l, a, k) == WakeMany(l, a, k)
    decreases k
  {
    if k == 0 {
      WokenNone(l, a);
    } else {
      WokenNext(l, a, k - 1);
      WokenIsWakeMany(WakeOne(l, a), a, k - 1);
    }
  }

  lemma WokenNone(l: Lists, a: int)
    ensures Woken(l, a, 0) == l
  {
    var m := Woken(l, a, 0);
    assert m.ready == l.ready && m.status == l.status && m.need == l.need;
  }

  /** The loop wakes exactly the first WakeCount processes. */
  lemma {:induction false} WakeEffect(l: Lists, a: int, sum: int)
    requires Inv(l)
    ensures Wake(l, a, sum) == WakeMany(l, a, WakeCount(l.need, QueueAt(l.queue, a), sum))
    decreases |QueueAt(l.queue, a)|
  {
    var q := QueueAt(l.queue, a);
    if q != [] && NeedOf(l.need, q[0]) >= -sum && sum != 0 {
      var m := WakeOne(l, a);
      WakeOneKeeps(l, a);
      WakeEffect(m, a, sum + NeedOf(l.need, q[0]));
      QueueNeeds(l, a);
      TailMembers(q);
      WakeCountFrame(l.need, m.need, q[1..], sum + NeedOf(l.need, q[0]));
    }
  }

  lemma {:induction false} WakeCountFrame(need: seq<int>, need': seq<int>, q: seq<int>, sum: int)
    requires forall p :: p in q ==> NeedOf(need, p) == NeedOf(need', p)
    ensures WakeCount(need, q, sum) == WakeCount(need', q, sum)
  {
    if q != [] {
      WakeCountFrame(need, need', q[1..], sum + NeedOf(need, q[0]));
    }
  }

  /** That prefix is the longest whose demand fits in sum: the test `sum != 0`
      of the loop changes nothing. */
  lemma {:induction false} LongestPrefix(need: seq<int>, q: seq<int>, sum: int, j: nat)
    requires forall p :: p in q ==> NeedOf(need, p) < 0
    requires 1 <= j <= |q|
    ensures j <= WakeCount(need, q, sum) <==> Demand(need, q[..j]) <= sum
  {
    assert q[..j] == [q[0]] + q[1..][..j - 1];
    DemandConcat(need, [q[0]], q[1..][..j - 1]);
    DemandPositive(need, q[1..][..j - 1]);
    if j > 1 {
      LongestPrefix(need, q[1..], sum + NeedOf(need, q[0]), j - 1);
    }
  }

  lemma {:induction false} WakeManySem(l: Lists, a: int, k: nat, sem: map<int, int>)
    ensures WakeMany(l.(sem := sem), a, k) == WakeMany(l, a, k).(sem := sem)
    decreases k
  {
    if k > 0 {
      WakeManySem(WakeOne(l, a), a, k - 1, sem);
    }
  }

  lemma {:induction false} ReleaseIsWakeMany(l: Lists, a: int, w: int) returns (k: nat)
    requires Inv(l)
    ensures k == WakeCount(l.need, QueueAt(l.queue, a), Avail(l, a) + w) <= |QueueAt(l.queue, a)|
    ensures AfterRelease(l, a, w) == WakeMany(l, a, k).(sem := l.sem[a := Val(l.sem, a) + w])
  {
    var l1 := l.(sem := l.sem[a := Val(l.sem, a) + w]);
    assert Live(l1) == Live(l) && Waiting(l1) == Waiting(l);
    k := WakeCount(l.need, QueueAt(l.queue, a), Avail(l1, a));
    WakeEffect(l1, a, Avail(l1, a));
    WakeManySem(l, a, k, l1.sem);
  }

  /** verhogen: the value grows by w, and of the queue exactly the longest
      prefix that fits in the available amount becomes ready, in order. */
  lemma {:induction false} ReleaseWakesLongestPrefix(l: Lists, a: int, w: int) returns (k: nat)
    requires Inv(l)
    ensures k == WakeCount(l.need, QueueAt(l.queue, a), Avail(l, a) + w) <= |QueueAt(l.queue, a)|
    ensures AfterRelease(l, a, w) == Woken(l, a, k).(sem := l.sem[a := Val(l.sem, a) + w])
    ensures forall j :: 1 <= j <= |QueueAt(l.queue, a)| ==>
      (j <= k <==> Demand(l.need, QueueAt(l.queue, a)[..j]) <= Avail(l, a) + w)
  {
    k := ReleaseIsWakeMany(l, a, w);
    WokenIsWakeMany(l, a, k);
    QueueNeeds(l, a);
    forall j | 1 <= j <= |QueueAt(l.queue, a)|
      ensures j <= k <==> Demand(l.need, QueueAt(l.queue, a)[..j]) <= Avail(l, a) + w
    {
      LongestPrefix(l.need, QueueAt(l.queue, a), Avail(l, a) + w, j);
    }
  }

  // ----- the ledger ---------------------------------------------------------

  /** A request, or the grant of one: a process and a number of units. */
  type Entry = (int, int)

  function Entries(need: seq<int>, q: seq<int>): seq<Entry> {
    if q == [] then [] else [(q[0], -NeedOf(need, q[0]))] + Entries(need, q[1..])
  }

  function Units(es: seq<Entry>): int {
    if es == [] then 0 else es[0].1 + Units(es[1..])
  }

  function Requested(op: Op, a: int): seq<Entry> {
    if op.Request? && op.a == a then [(op.p, -op.w)] else []
  }

  function Supplied(op: Op, a: int): int {
    if op.Release? && op.a == a then op.w else 0
  }

  function Granted(l: Lists, op: Op, a: int): seq<Entry> {
    match op
    case Request(p, b, w) => if a == b && Val(l.sem, a) + w >= 0 then [(p, -w)] else []
    case Release(b, w) =>
      if a == b then
        var q := QueueAt(l.queue, a);
        Entries(l.need, q[..WakeCount(l.need, q, Avail(l, a) + w)])
      else []
    case _ => []
  }

  /** op kills a process queued at a. */
  predicate KillsWaiter(l: Lists, op: Op, a: int) {
    (op.Reap? || op.Kill?) && Is(l, op.p, Blocked(a))
  }

  /** A device semaphore is not given back what a killed waiter waited for. */
  function Lost(l: Lists, op: Op, a: int): int {
    if KillsWaiter(l, op, a) && l.dev <= a <= l.dev + 48 then -NeedOf(l.need, op.p) else 0
  }

  lemma {:induction false} EntriesUnits(need: seq<int>, q: seq<int>)
    ensures Units(Entries(need, q)) == Demand(need, q) && |Entries(need, q)| == |q|
  {
    if q != [] {
      EntriesUnits(need, q[1..]);
      assert Entries(need, q)[1..] == Entries(need, q[1..]);
    }
  }

  lemma {:induction false} EntriesConcat(need: seq<int>, q: seq<int>, r: seq<int>)
    ensures Entries(need, q + r) == Entries(need, q) + Entries(need, r)
  {
    if q == [] {
      assert q + r == r;
    } else {
      assert (q + r)[1..] == q[1..] + r;
      EntriesConcat(need, q[1..], r);
    }
  }

  lemma {:induction false} EntriesAdd(need: seq<int>, need': seq<int>, q: seq<int>, p: int)
    requires forall x :: x in q ==> NeedOf(need, x) == NeedOf(need', x)
    ensures Entries(need', q + [p]) == Entries(need, q) + [(p, -NeedOf(need', p))]
  {
    EntriesConcat(need', q, [p]);
    EntriesFrame(need, need', q);
    assert [p][1..] == [];
  }

  lemma {:induction false} EntriesSplit(need: seq<int>, q: seq<int>, k: nat)
    requires k <= |q|
    ensures Entries(need, q) == Entries(need, q[..k]) + Entries(need, q[k..])
  {
    EntriesConcat(need, q[..k], q[k..]);
    assert q[..k] + q[k..] == q;
  }

  lemma {:induction false} EntriesFrame(need: seq<int>, need': seq<int>, q: seq<int>)
    requires forall p :: p in q ==> NeedOf(need, p) == NeedOf(need', p)
    ensures Entries(need, q) == Entries(need', q)
  {
    if q != [] {
      EntriesFrame(need, need', q[1..]);
    }
  }

  lemma {:induction false} UnitsConcat(es: seq<Entry>, fs: seq<Entry>)
    ensures Units(es + fs) == Units(es) + Units(fs)
  {
    if es == [] {
      assert es + fs == fs;
    } else {
      assert (es + fs)[1..] == es[1..] + fs;
      UnitsConcat(es[1..], fs);
    }
  }

  /** What an operation does at a: only requests, releases and kills of
      waiters matter, and those who wait on keep their request. */
  ghost predicate Local(l: Lists, op: Op, a: int, m: Lists) {
    var q := QueueAt(l.queue, a);
    && QueueAt(m.queue, a) == (
         if op.Request? && op.a == a && Val(l.sem, a) + op.w < 0 then q + [op.p]
         else if op.Release? && op.a == a then q[WakeCount(l.need, q, Avail(l, a) + op.w)..]
         else if KillsWaiter(l, op, a) then Without(q, op.p)
         else q)
    && (forall p :: p in q && p in QueueAt(m.queue, a) ==> NeedOf(m.need, p) == NeedOf(l.need, p))
    && (op.Request? && op.a == a && Val(l.sem, a) + op.w < 0 ==> NeedOf(m.need, op.p) == op.w)
    && Val(m.sem, a) == Val(l.sem, a) + (
         if (op.Request? || op.Release?) && op.a == a then op.w
         else if KillsWaiter(l, op, a) && !(l.dev <= a <= l.dev + 48) then -NeedOf(l.need, op.p)
         else 0)
  }

  lemma {:induction false} LocalRelease(l: Lists, a: int, w: int, b: int)
    requires Inv(l)
    ensures Local(l, Release(a, w), b, AfterRelease(l, a, w))
  {
    hide Inv, WakeCount, Demand, Distinct, AfterRelease;
    var q := QueueAt(l.queue, a);
    QueueNeeds(l, a);
    QueueNeeds(l, b);
    var k := ReleaseWakesLongestPrefix(l, a, w);
    var m := AfterRelease(l, a, w);
    PartsDiffer(q, k);
    forall p | p in QueueAt(l.queue, b) && p in QueueAt(m.queue, b)
      ensures NeedOf(m.need, p) == NeedOf(l.need, p)
    {
      assert p in q[..k] ==> p in q && Is(l, p, Blocked(a));
    }
    if k == 0 {
      assert q[0..] == q;
    }
  }

  lemma {:induction false} LocalKill(l: Lists, p: int, a: int)
    requires Inv(l) && 0 <= p < |l.status|
    ensures Local(l, Reap(p), a, AfterReap(l, p)) && Local(l, Kill(p), a, AfterKill(l, p))
  {
  }

  lemma {:induction false} LocalAlways(l: Lists, op: Op, a: int)
    requires Inv(l) && Enabled(l, op)
    ensures Local(l, op, a, Apply(l, op))
  {
    QueueNeeds(l, a);
    match op
    case Request(p, b, w) => assert p !in QueueAt(l.queue, a);
    case Release(b, w) => LocalRelease(l, b, w, a);
    case Reap(p) => LocalKill(l, p, a);
    case Kill(p) => LocalKill(l, p, a);
    case Spawn => assert l.free[0] in l.free;
    case Requeue(p) =>
    case Dispatch =>
  }

  /** The processes queued at a, each with something to wait for. */
  ghost predicate Waits(l: Lists, a: int) {
    && Distinct(QueueAt(l.queue, a))
    && forall p :: p in QueueAt(l.queue, a) ==> NeedOf(l.need, p) < 0
  }

  lemma {:induction false} BalanceRelease(l: Lists, w: int, a: int, m: Lists)
    requires Local(l, Release(a, w), a, m)
    ensures Avail(m, a) == Avail(l, a) + w - Units(Granted(l, Release(a, w), a))
  {
    var q := QueueAt(l.queue, a);
    var k := WakeCount(l.need, q, Avail(l, a) + w);
    var r, g := q[k..], q[..k];
    DemandSplit(l.need, q, k);
    DemandFrame(l.need, m.need, r);
    EntriesUnits(l.need, g);
  }

  lemma {:induction false} BalanceKill(l: Lists, op: Op, a: int, m: Lists)
    requires Waits(l, a) && Local(l, op, a, m) && KillsWaiter(l, op, a) && op.p in QueueAt(l.queue, a)
    ensures Avail(m, a) == Avail(l, a) - Lost(l, op, a)
  {
    var q, p := QueueAt(l.queue, a), op.p;
    WithoutDistinct(q, p);
    DemandFrame(l.need, m.need, Without(q, p));
    DemandWithout(l.need, q, p);
  }

  lemma {:induction false} BalanceOf(l: Lists, op: Op, a: int, m: Lists)
    requires Waits(l, a) && Local(l, op, a, m) && (KillsWaiter(l, op, a) ==> op.p in QueueAt(l.queue, a))
    ensures Avail(m, a) == Avail(l, a) + Supplied(op, a) - Units(Granted(l, op, a)) - Lost(l, op, a)
  {
    if KillsWaiter(l, op, a) {
      BalanceKill(l, op, a, m);
    } else if op.Release? && op.a == a {
      BalanceRelease(l, op.w, a, m);
    } else {
      DemandFrame(l.need, m.need, QueueAt(l.queue, a));
      if op.Request? && op.a == a && Val(l.sem, a) + op.w < 0 {
        DemandAdd(m.need, QueueAt(l.queue, a), op.p);
      }
    }
  }

  /** value + queued demand moves only by supplies, grants and losses. */
  lemma {:induction false} Balance(l: Lists, op: Op, a: int)
    requires Inv(l) && Enabled(l, op)
    ensures Avail(Apply(l, op), a) == Avail(l, a) + Supplied(op, a) - Units(Granted(l, op, a)) - Lost(l, op, a)
  {
    LocalAlways(l, op, a);
    QueueNeeds(l, a);
    BalanceOf(l, op, a, Apply(l, op));
  }

  // ----- runs ---------------------------------------------------------------

  ghost function Run(l: Lists, ops: seq<Op>): Lists
    decreases |ops|
  {
    if ops == [] then l else Run(Apply(l, ops[0]), ops[1..])
  }

  /** Every operation of the run is one the kernel may perform then. */
  ghost predicate Legal(l: Lists, ops: seq<Op>)
    decreases |ops|
  {
    ops == [] || (Enabled(l, ops[0]) && Legal(Apply(l, ops[0]), ops[1..]))
  }

  ghost function AllGranted(l: Lists, ops: seq<Op>, a: int): seq<Entry>
    decreases |ops|
  {
    if ops == [] then [] else Granted(l, ops[0], a) + AllGranted(Apply(l, ops[0]), ops[1..], a)
  }

  function AllRequested(ops: seq<Op>, a: int): seq<Entry> {
    if ops == [] then [] else Requested(ops[0], a) + AllRequested(ops[1..], a)
  }

  function AllSupplied(ops: seq<Op>, a: int): int {
    if ops == [] then 0 else Supplied(ops[0], a) + AllSupplied(ops[1..], a)
  }

  ghost function AllLost(l: Lists, ops: seq<Op>, a: int): int
    decreases |ops|
  {
    if ops == [] then 0 else Lost(l, ops[0], a) + AllLost(Apply(l, ops[0]), ops[1..], a)
  }

  /** No operation of the run kills a process queued at a. */
  ghost predicate NoWaiterKilled(l: Lists, ops: seq<Op>, a: int)
    decreases |ops|
  {
    ops == [] || (!KillsWaiter(l, ops[0], a) && NoWaiterKilled(Apply(l, ops[0]), ops[1..], a))
  }

  lemma {:induction false} InvOverRuns(l: Lists, ops: seq<Op>)
    requires Inv(l) && Legal(l, ops)
    ensures Inv(Run(l, ops)) && Run(l, ops).dev == l.dev && |Run(l, ops).status| == |l.status|
    decreases |ops|
  {
    if ops != [] {
      InvPreserved(l, ops[0]);
      Shape(l, ops[0]);
      InvOverRuns(Apply(l, ops[0]), ops[1..]);
    }
  }

  lemma Shape(l: Lists, op: Op)
    requires Inv(l)
    ensures Apply(l, op).dev == l.dev && |Apply(l, op).status| == |l.status|
  {
    if op.Release? {
      var k := ReleaseWakesLongestPrefix(l, op.a, op.w);
    }
  }

  /** Conservation, over every run, kills included. */
  lemma {:induction false} Conservation(l: Lists, ops: seq<Op>, a: int)
    requires Inv(l) && Legal(l, ops)
    ensures Avail(Run(l, ops), a) ==
      Avail(l, a) + AllSupplied(ops, a) - Units(AllGranted(l, ops, a)) - AllLost(l, ops, a)
    ensures !(l.dev <= a <= l.dev + 48) ==> AllLost(l, ops, a) == 0
    decreases |ops|
  {
    if ops != [] {
      InvPreserved(l, ops[0]);
      Shape(l, ops[0]);
      Balance(l, ops[0], a);
      Conservation(Apply(l, ops[0]), ops[1..], a);
      UnitsConcat(Granted(l, ops[0], a), AllGranted(Apply(l, ops[0]), ops[1..], a));
    }
  }

  lemma {:induction false} AvailStaysNonNegative(l: Lists, op: Op, a: int)
    requires Inv(l) && Enabled(l, op) && !IsDevice(l, a) && Avail(l, a) >= 0
    ensures Avail(Apply(l, op), a) >= 0
  {
    Balance(l, op, a);
    QueueNeeds(l, a);
    var q := QueueAt(l.queue, a);
    if op.Request? {
      DemandPositive(l.need, q);
    } else if op.Release? && op.a == a {
      var k := WakeCount(l.need, q, Avail(l, a) + op.w);
      if k > 0 {
        LongestPrefix(l.need, q, Avail(l, a) + op.w, k);
      }
      EntriesUnits(l.need, q[..k]);
    }
  }

  /** What may still be granted never goes below zero, so what was granted
      never exceeds the initial amount and the supplies. */
  lemma {:induction false} GrantsNeverExceedSupply(l: Lists, ops: seq<Op>, a: int)
    requires Inv(l) && Legal(l, ops) && !IsDevice(l, a) && Avail(l, a) >= 0
    ensures Avail(Run(l, ops), a) >= 0
    ensures Units(AllGranted(l, ops, a)) <= Avail(l, a) + AllSupplied(ops, a)
    decreases |ops|
  {
    Conservation(l, ops, a);
    if ops != [] {
      InvPreserved(l, ops[0]);
      Shape(l, ops[0]);
      AvailStaysNonNegative(l, ops[0], a);
      GrantsNeverExceedSupply(Apply(l, ops[0]), ops[1..], a);
    }
  }

  // ----- order --------------------------------------------------------------

  /** The head of the queue cannot be satisfied. */
  predicate Tight(l: Lists, a: int) {
    var q := QueueAt(l.queue, a);
    q != [] ==> -NeedOf(l.need, q[0]) > Avail(l, a)
  }

  /** While the head cannot be satisfied the value is negative, so a passeren
      queues behind it. */
  lemma TightIsNegative(l: Lists, a: int)
    requires Inv(l) && Tight(l, a) && QueueAt(l.queue, a) != []
    ensures Val(l.sem, a) < 0
  {
    QueueNeeds(l, a);
    DemandPositive(l.need, QueueAt(l.queue, a));
  }

  lemma {:induction false} TightKeptBy(l: Lists, op: Op, a: int, m: Lists)
    requires Waits(l, a) && Local(l, op, a, m) && Tight(l, a) && !KillsWaiter(l, op, a)
    requires (op.Request? ==> op.w < 0) && (QueueAt(l.queue, a) != [] ==> Val(l.sem, a) < 0)
    ensures Tight(m, a)
  {
    var q := QueueAt(l.queue, a);
    BalanceOf(l, op, a, m);
    if op.Release? && op.a == a {
      var k := WakeCount(l.need, q, Avail(l, a) + op.w);
      EntriesUnits(l.need, q[..k]);
      if k < |q| {
        LongestPrefix(l.need, q, Avail(l, a) + op.w, k + 1);
        assert q[..k + 1] == q[..k] + [q[k]];
        DemandAdd(l.need, q[..k], q[k]);
        assert q[k..][0] == q[k] && q[k] in q;
      }
    } else if q != [] {
      assert q[0] in q;
    }
  }

  lemma {:induction false} TightKept(l: Lists, op: Op, a: int)
    requires Inv(l) && Enabled(l, op) && Tight(l, a) && !KillsWaiter(l, op, a)
    ensures Tight(Apply(l, op), a)
  {
    LocalAlways(l, op, a);
    QueueNeeds(l, a);
    if QueueAt(l.queue, a) != [] {
      TightIsNegative(l, a);
    }
    TightKeptBy(l, op, a, Apply(l, op));
  }

  /** A kill of a waiter keeps it iff the victim is not the head, or leaves no
      waiter, or the next waiter cannot be satisfied either. */
  lemma {:induction false} KillTightIff(l: Lists, op: Op, a: int)
    requires Inv(l) && Enabled(l, op) && Tight(l, a) && KillsWaiter(l, op, a)
    ensures var q := QueueAt(l.queue, a);
      Tight(Apply(l, op), a) <==>
        q[0] != op.p || |q| == 1 || -NeedOf(l.need, q[1]) > Avail(l, a) - Lost(l, op, a)
  {
    LocalAlways(l, op, a);
    QueueNeeds(l, a);
    KillTightOf(l, op, a, Apply(l, op));
  }

  lemma {:induction false} KillTightOf(l: Lists, op: Op, a: int, m: Lists)
    requires Waits(l, a) && Local(l, op, a, m) && Tight(l, a)
    requires KillsWaiter(l, op, a) && op.p in QueueAt(l.queue, a)
    ensures var q := QueueAt(l.queue, a);
      Tight(m, a) <==> q[0] != op.p || |q| == 1 || -NeedOf(l.need, q[1]) > Avail(l, a) - Lost(l, op, a)
  {
    var q := QueueAt(l.queue, a);
    BalanceOf(l, op, a, m);
    WithoutTail(q, op.p);
    assert q[0] in q;
    if |q| > 1 {
      assert q[1] in q && q[1] == q[1..][0] && q[1] in q[1..];
    }
  }

  lemma Chain(e0: seq<Entry>, r: seq<Entry>, g: seq<Entry>, e1: seq<Entry>, rs: seq<Entry>, gs: seq<Entry>, e2: seq<Entry>)
    requires e0 + r == g + e1 && e1 + rs == gs + e2
    ensures e0 + (r + rs) == (g + gs) + e2
  {
    calc {
      e0 + (r + rs);
      (e0 + r) + rs;
      (g + e1) + rs;
      g + (e1 + rs);
      g + (gs + e2);
      (g + gs) + e2;
    }
  }

  /** No request overtakes another: as long as no waiter of a is killed, what
      was queued and what was requested are, in this order, what was granted
      and what is queued. */
  lemma {:induction false} FirstComeFirstServed(l: Lists, ops: seq<Op>, a: int)
    requires Inv(l) && Legal(l, ops) && Tight(l, a) && NoWaiterKilled(l, ops, a)
    ensures Tight(Run(l, ops), a)
    ensures EntriesAt(l, a) + AllRequested(ops, a) == AllGranted(l, ops, a) + EntriesAt(Run(l, ops), a)
    decreases |ops|
  {
    if ops != [] {
      var m := Apply(l, ops[0]);
      StepKeepsOrder(l, ops[0], a, m);
      FirstComeFirstServed(m, ops[1..], a);
      Chain(EntriesAt(l, a), Requested(ops[0], a), Granted(l, ops[0], a), EntriesAt(m, a),
        AllRequested(ops[1..], a), AllGranted(m, ops[1..], a), EntriesAt(Run(l, ops), a));
    }
  }

  /** The requests queued at a. */
  function EntriesAt(l: Lists, a: int): seq<Entry> {
    Entries(l.need, QueueAt(l.queue, a))
  }

  lemma {:induction false} StepKeepsOrder(l: Lists, op: Op, a: int, m: Lists)
    requires Inv(l) && Enabled(l, op) && Tight(l, a) && !KillsWaiter(l, op, a) && m == Apply(l, op)
    ensures Inv(m) && Tight(m, a)
    ensures EntriesAt(l, a) + Requested(op, a) == Granted(l, op, a) + EntriesAt(m, a)
  {
    InvPreserved(l, op);
    TightKept(l, op, a);
    LocalAlways(l, op, a);
    QueueNeeds(l, a);
    if QueueAt(l.queue, a) != [] {
      TightIsNegative(l, a);
    }
    StepInOrder(l, op, a, m);
  }

  lemma {:induction false} StepInOrder(l: Lists, op: Op, a: int, m: Lists)
    requires Waits(l, a) && Local(l, op, a, m) && !KillsWaiter(l, op, a)
    requires (op.Request? ==> op.w < 0) && (QueueAt(l.queue, a) != [] ==> Val(l.sem, a) <= 0)
    ensures EntriesAt(l, a) + Requested(op, a) == Granted(l, op, a) + EntriesAt(m, a)
  {
    var q := QueueAt(l.queue, a);
    if op.Release? && op.a == a {
      ReleaseInOrder(l, op.w, a, m);
    } else if op.Request? && op.a == a && Val(l.sem, a) + op.w < 0 {
      EntriesAdd(l.need, m.need, q, op.p);
    } else {
      EntriesFrame(l.need, m.need, q);
    }
  }

  lemma {:induction false} ReleaseInOrder(l: Lists, w: int, a: int, m: Lists)
    requires Local(l, Release(a, w), a, m)
    ensures EntriesAt(l, a) == Granted(l, Release(a, w), a) + EntriesAt(m, a)
  {
    var q := QueueAt(l.queue, a);
    var k := WakeCount(l.need, q, Avail(l, a) + w);
    var g, r := q[..k], q[k..];
    assert Granted(l, Release(a, w), a) == Entries(l.need, g);
    EntriesSplit(l.need, q, k);
    EntriesFrame(l.need, m.need, r);
  }

  // ----- order when waiters are killed ------------------------------------------------

  /** While somebody waits at a nothing is left of it. */
  predicate Steady(l: Lists, a: int) {
    QueueAt(l.queue, a) != [] ==> Val(l.sem, a) <= 0
  }

  /** Somebody waits at a, and yet some request there would be granted at once. */
  ghost predicate CanOvertake(l: Lists, a: int) {
    QueueAt(l.queue, a) != [] && exists p, w :: w < 0 && Granted(l, Request(p, a, w), a) != []
  }

  lemma SteadyMeaning(l: Lists, a: int)
    ensures CanOvertake(l, a) <==> !Steady(l, a)
  {
    if Val(l.sem, a) > 0 {
      assert Granted(l, Request(0, a, -1), a) != [];
    }
  }

  /** op kills no waiter of a; or a is a device's, or nobody else waits, or what
      the victim gives back leaves nothing to take. */
  predicate Harmless(l: Lists, op: Op, a: int) {
    KillsWaiter(l, op, a) ==>
      l.dev <= a <= l.dev + 48 || |QueueAt(l.queue, a)| == 1 || Val(l.sem, a) - NeedOf(l.need, op.p) <= 0
  }

  lemma {:induction false} KillSteadyIff(l: Lists, op: Op, a: int)
    requires Inv(l) && Enabled(l, op) && Steady(l, a) && KillsWaiter(l, op, a)
    ensures Steady(Apply(l, op), a) <==> Harmless(l, op, a)
  {
    var q := QueueAt(l.queue, a);
    LocalAlways(l, op, a);
    QueueNeeds(l, a);
    assert op.p in q;
    assert |Without(q, op.p)| == |q| - 1;
  }

  /** After the kill of a waiter a request can overtake those who wait on iff
      the kill is not harmless. */
  lemma {:induction false} KillOvertakesIff(l: Lists, op: Op, a: int)
    requires Inv(l) && Enabled(l, op) && Steady(l, a) && KillsWaiter(l, op, a)
    ensures CanOvertake(Apply(l, op), a) <==>
      !(l.dev <= a <= l.dev + 48) && |QueueAt(l.queue, a)| > 1 && Val(l.sem, a) - NeedOf(l.need, op.p) > 0
  {
    KillSteadyIff(l, op, a);
    SteadyMeaning(Apply(l, op), a);
    LocalAlways(l, op, a);
    QueueNeeds(l, a);
    assert op.p in QueueAt(l.queue, a);
  }

  /** Every operation but a harmful kill keeps it so that nobody can overtake. */
  lemma {:induction false} SteadyKept(l: Lists, op: Op, a: int)
    requires Inv(l) && Enabled(l, op) && Steady(l, a) && Harmless(l, op, a)
    ensures Steady(Apply(l, op), a)
  {
    if KillsWaiter(l, op, a) {
      KillSteadyIff(l, op, a);
    } else {
      LocalAlways(l, op, a);
      QueueNeeds(l, a);
      SteadyKeptBy(l, op, a, Apply(l, op));
    }
  }

  lemma {:induction false} SteadyKeptBy(l: Lists, op: Op, a: int, m: Lists)
    requires Waits(l, a) && Local(l, op, a, m) && Steady(l, a) && !KillsWaiter(l, op, a) && (op.Request? ==> op.w < 0)
    ensures Steady(m, a)
  {
    hide Waits, Demand, WakeCount;
    if op.Release? && op.a == a {
      WokenSteady(l, a, op.w, WakeCount(l.need, QueueAt(l.queue, a), Avail(l, a) + op.w));
    }
  }

  /** What is left after the longest prefix that fits asks for more than is left. */
  lemma WokenSteady(l: Lists, a: int, w: int, k: nat)
    requires Waits(l, a) && k == WakeCount(l.need, QueueAt(l.queue, a), Avail(l, a) + w)
    ensures k < |QueueAt(l.queue, a)| ==> Val(l.sem, a) + w <= 0
  {
    hide WakeCount, Demand;
    var q := QueueAt(l.queue, a);
    if k < |q| {
      LongestPrefix(l.need, q, Avail(l, a) + w, k + 1);
      assert q[..k + 1] + q[k + 1..] == q;
      DemandSplit(l.need, q, k + 1);
      forall p | p in q[k + 1..]
        ensures NeedOf(l.need, p) < 0
      {
        assert p in q;
      }
      DemandPositive(l.need, q[k + 1..]);
    }
  }

  /** Every kill of a waiter of a in the run is harmless. */
  ghost predicate HarmlessKills(l: Lists, ops: seq<Op>, a: int)
    decreases |ops|
  {
    ops == [] || (Harmless(l, ops[0], a) && HarmlessKills(Apply(l, ops[0]), ops[1..], a))
  }

  /** What op takes off the queue by death. */
  function Struck(l: Lists, op: Op, a: int): seq<Entry> {
    if KillsWaiter(l, op, a) then [(op.p, -NeedOf(l.need, op.p))] else []
  }

  /** The pending requests of the waiters of a that the run kills. */
  ghost function AllStruck(l: Lists, ops: seq<Op>, a: int): seq<Entry>
    decreases |ops|
  {
    if ops == [] then [] else Struck(l, ops[0], a) + AllStruck(Apply(l, ops[0]), ops[1..], a)
  }

  /** es is fs with some entries left out. */
  ghost predicate Sub(es: seq<Entry>, fs: seq<Entry>) {
    es == [] || (fs != [] && ((es[0] == fs[0] && Sub(es[1..], fs[1..])) || Sub(es, fs[1..])))
  }

  lemma {:induction false} SubSelf(es: seq<Entry>)
    ensures Sub(es, es)
  {
    if es != [] {
      SubSelf(es[1..]);
    }
  }

  lemma {:induction false} SubTrans(es: seq<Entry>, fs: seq<Entry>, gs: seq<Entry>)
    requires Sub(es, fs) && Sub(fs, gs)
    ensures Sub(es, gs)
    decreases |gs|
  {
    if es != [] {
      if fs[0] == gs[0] && Sub(fs[1..], gs[1..]) {
        if es[0] == fs[0] && Sub(es[1..], fs[1..]) {
          SubTrans(es[1..], fs[1..], gs[1..]);
        } else {
          SubTrans(es, fs[1..], gs[1..]);
        }
      } else {
        SubTrans(es, fs, gs[1..]);
      }
    }
  }

  lemma {:induction false} SubPrefix(xs: seq<Entry>, es: seq<Entry>, fs: seq<Entry>)
    requires Sub(es, fs)
    ensures Sub(xs + es, xs + fs)
  {
    if xs == [] {
      assert xs + es == es && xs + fs == fs;
    } else {
      SubPrefix(xs[1..], es, fs);
      assert (xs + es)[1..] == xs[1..] + es && (xs + fs)[1..] == xs[1..] + fs;
    }
  }

  lemma {:induction false} SubCut(es: seq<Entry>, j: nat)
    requires j < |es|
    ensures Sub(es[..j] + es[j + 1..], es)
    ensures multiset(es) == multiset(es[..j] + es[j + 1..]) + multiset([es[j]])
  {
    hide Sub;
    var xs, ys := es[..j], es[j + 1..];
    assert es[j..] == [es[j]] + ys;
    SubSkip(es[j], ys);
    SubPrefix(xs, ys, [es[j]] + ys);
    assert xs + ([es[j]] + ys) == es == xs + [es[j]] + ys;
  }

  lemma {:induction false} SubSkip(e: Entry, es: seq<Entry>)
    ensures Sub(es, [e] + es)
  {
    SubSelf(es);
    assert ([e] + es)[1..] == es;
  }

  lemma {:induction false} EntriesAt1(need: seq<int>, q: seq<int>, j: nat)
    requires j < |q|
    ensures |Entries(need, q)| == |q| && Entries(need, q)[j] == (q[j], -NeedOf(need, q[j]))
    ensures Entries(need, q[..j] + q[j + 1..]) == Entries(need, q)[..j] + Entries(need, q)[j + 1..]
  {
    EntriesUnits(need, q);
    EntriesUnits(need, q[..j]);
    EntriesSplit(need, q, j);
    assert q[j..] == [q[j]] + q[j + 1..];
    EntriesConcat(need, [q[j]], q[j + 1..]);
    assert [q[j]][1..] == [];
    EntriesConcat(need, q[..j], q[j + 1..]);
  }

  lemma {:induction false} EntriesStruck(need: seq<int>, q: seq<int>, p: int)
    requires Distinct(q) && p in q
    ensures var r := Without(q, p);
      && Sub(Entries(need, r), Entries(need, q))
      && multiset(Entries(need, q)) == multiset(Entries(need, r)) + multiset([(p, -NeedOf(need, p))])
  {
    hide Distinct, NeedOf, Sub, Entries;
    var j := IndexOf(q, p);
    var r := q[..j] + q[j + 1..];
    EntriesAt1(need, q, j);
    assert Without(q, p) == r by {
      assert IsCut(q, j, r);
      CutUnique(q, j, Without(q, p), r);
    }
    SubCut(Entries(need, q), j);
  }

  /** A kill strikes the victim's own pending request, and no other. */
  lemma {:induction false} KillStrikes(l: Lists, op: Op, a: int, m: Lists)
    requires Waits(l, a) && Local(l, op, a, m) && KillsWaiter(l, op, a) && op.p in QueueAt(l.queue, a)
    ensures Sub(EntriesAt(m, a), EntriesAt(l, a))
    ensures multiset(EntriesAt(l, a)) == multiset(EntriesAt(m, a)) + multiset(Struck(l, op, a))
  {
    hide Sub, Entries, NeedOf;
    var q := QueueAt(l.queue, a);
    EntriesStruck(l.need, q, op.p);
    WithoutDistinct(q, op.p);
    EntriesFrame(l.need, m.need, Without(q, op.p));
  }

  lemma StepGuards(l: Lists, op: Op, a: int)
    requires Inv(l) && Enabled(l, op) && Steady(l, a)
    ensures (op.Request? ==> op.w < 0) && (QueueAt(l.queue, a) != [] ==> Val(l.sem, a) <= 0)
    ensures KillsWaiter(l, op, a) ==> op.p in QueueAt(l.queue, a)
  {
  }

  /** One operation: what was queued and requested, less what is struck, is what
      is granted and queued. */
  lemma {:induction false} StepStrikes(l: Lists, op: Op, a: int, m: Lists)
    requires Inv(l) && Enabled(l, op) && Steady(l, a) && Harmless(l, op, a) && m == Apply(l, op)
    ensures Inv(m) && Steady(m, a)
    ensures Sub(Granted(l, op, a) + EntriesAt(m, a), EntriesAt(l, a) + Requested(op, a))
    ensures multiset(EntriesAt(l, a) + Requested(op, a)) ==
      multiset(Granted(l, op, a) + EntriesAt(m, a)) + multiset(Struck(l, op, a))
  {
    hide Inv, Sub, Harmless, Steady, Apply, Enabled, Entries;
    InvPreserved(l, op);
    SteadyKept(l, op, a);
    LocalAlways(l, op, a);
    QueueNeeds(l, a);
    StepGuards(l, op, a);
    if KillsWaiter(l, op, a) {
      KillStrikes(l, op, a, m);
      assert Granted(l, op, a) == [] && Requested(op, a) == [];
      assert [] + EntriesAt(m, a) == EntriesAt(m, a) && EntriesAt(l, a) + [] == EntriesAt(l, a);
    } else {
      StepInOrder(l, op, a, m);
      SubSelf(EntriesAt(l, a) + Requested(op, a));
    }
  }

  lemma {:induction false} StrikesChain(
      e0: seq<Entry>, r: seq<Entry>, g: seq<Entry>, e1: seq<Entry>, k: seq<Entry>,
      rs: seq<Entry>, gs: seq<Entry>, e2: seq<Entry>, ks: seq<Entry>)
    requires Sub(g + e1, e0 + r) && multiset(e0 + r) == multiset(g + e1) + multiset(k)
    requires Sub(gs + e2, e1 + rs) && multiset(e1 + rs) == multiset(gs + e2) + multiset(ks)
    ensures Sub((g + gs) + e2, e0 + (r + rs))
    ensures multiset(e0 + (r + rs)) == multiset((g + gs) + e2) + multiset(k + ks)
  {
    hide Sub;
    assert (g + gs) + e2 == g + (gs + e2) && e0 + (r + rs) == (e0 + r) + rs && g + (e1 + rs) == (g + e1) + rs;
    SubPrefix(g, gs + e2, e1 + rs);
    SubSuffix(g + e1, e0 + r, rs);
    SubTrans(g + (gs + e2), (g + e1) + rs, (e0 + r) + rs);
    Bags(multiset(e0 + r), multiset(rs), multiset(g), multiset(e1), multiset(k), multiset(gs + e2), multiset(ks));
    assert multiset(k + ks) == multiset(k) + multiset(ks);
    assert multiset(g + (gs + e2)) == multiset(g) + multiset(gs + e2);
  }

  lemma Bags(
      asked: multiset<Entry>, rs: multiset<Entry>, g: multiset<Entry>, e1: multiset<Entry>, k: multiset<Entry>,
      rest: multiset<Entry>, ks: multiset<Entry>)
    requires asked == (g + e1) + k && e1 + rs == rest + ks
    ensures asked + rs == (g + rest) + (k + ks)
  {
    assert asked + rs == g + (e1 + rs) + k;
  }

  lemma {:induction false} SubSuffix(es: seq<Entry>, fs: seq<Entry>, ys: seq<Entry>)
    requires Sub(es, fs)
    ensures Sub(es + ys, fs + ys)
    decreases |fs|
  {
    if fs == [] {
      assert es + ys == fs + ys;
      SubSelf(fs + ys);
    } else {
      assert (fs + ys)[1..] == fs[1..] + ys;
      if es != [] && es[0] == fs[0] && Sub(es[1..], fs[1..]) {
        SubSuffix(es[1..], fs[1..], ys);
        assert (es + ys)[1..] == es[1..] + ys && (es + ys)[0] == (fs + ys)[0];
      } else {
        SubSuffix(es, fs[1..], ys);
        assert Sub(es + ys, (fs + ys)[1..]);
      }
    }
  }

  /** No request overtakes another as long as the kills of waiters of a are
      harmless: the grants and then the queue are, in this order, what was
      queued and requested, less the pending requests of those killed. */
  lemma {:induction false} OrderDespiteKills(l: Lists, ops: seq<Op>, a: int)
    requires Inv(l) && Legal(l, ops) && Steady(l, a) && HarmlessKills(l, ops, a)
    ensures Steady(Run(l, ops), a)
    ensures var asked, got := EntriesAt(l, a) + AllRequested(ops, a), AllGranted(l, ops, a) + EntriesAt(Run(l, ops), a);
      Sub(got, asked) && multiset(asked) == multiset(got) + multiset(AllStruck(l, ops, a))
    decreases |ops|
  {
    hide Inv, Enabled, Apply, Steady, Harmless, Sub, EntriesAt, Granted, Requested, Struck;
    if ops == [] {
      SubSelf(EntriesAt(l, a));
      assert EntriesAt(l, a) + [] == EntriesAt(l, a) == [] + EntriesAt(l, a);
    } else {
      var m := Apply(l, ops[0]);
      StepStrikes(l, ops[0], a, m);
      OrderDespiteKills(m, ops[1..], a);
      StrikesChain(EntriesAt(l, a), Requested(ops[0], a), Granted(l, ops[0], a), EntriesAt(m, a), Struck(l, ops[0], a),
        AllRequested(ops[1..], a), AllGranted(m, ops[1..], a), EntriesAt(Run(l, ops), a), AllStruck(m, ops[1..], a));
    }
  }
}
