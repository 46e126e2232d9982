/** What the lists promise about progress: the pseudo-clock drain, the supply
    of semaphore descriptors, deadlock detection and round-robin waiting.
 */
module Progress {
  import opened Clist
  import opened Lists
  import opened Semaphores

  // ----- the pseudo-clock drain ---------------------------------------------

  /** timer_handler's loop: signal a while its value is negative. */
  function Drain(l: Lists, a: int): Lists
    decreases if Val(l.sem, a) < 0 then -Val(l.sem, a) else 0
  {
    if Val(l.sem, a) < 0 then Drain(AfterRelease(l, a, 1), a) else l
  }

  lemma {:induction false} WakeManyTwice(l: Lists, a: int, i: nat, j: nat)
    ensures WakeMany(WakeMany(l, a, i), a, j) == WakeMany(l, a, i + j)
    decreases i
  {
    if i > 0 {
      WakeManyTwice(WakeOne(l, a), a, i - 1, j);
    }
  }

  lemma {:induction false} WakeManyLeaves(l: Lists, a: int, k: nat)
    requires k <= |QueueAt(l.queue, a)|
    ensures |QueueAt(WakeMany(l, a, k).queue, a)| == |QueueAt(l.queue, a)| - k
    decreases k
  {
    if k > 0 {
      WakeManyLeaves(WakeOne(l, a), a, k - 1);
    }
  }

  lemma {:induction false} DrainIsWakeMany(l: Lists, a: int)
    requires Inv(l) && Val(l.sem, a) < 0
    ensures Drain(l, a) == WakeMany(l, a, |QueueAt(l.queue, a)|).(sem := l.sem[a := 0])
    decreases -Val(l.sem, a)
  {
    hide Inv, AfterRelease, WakeMany, Demand;
    var n := |QueueAt(l.queue, a)|;
    var k := ReleaseIsWakeMany(l, a, 1);
    var m := AfterRelease(l, a, 1);
    if Val(m.sem, a) < 0 {
      InvPreserved(l, Release(a, 1));
      DrainIsWakeMany(m, a);
      WakeManyLeaves(l, a, k);
      WakeManySem(WakeMany(l, a, k), a, n - k, m.sem);
      WakeManyTwice(l, a, k, n - k);
      assert m.sem[a := 0] == l.sem[a := 0];
    } else if n > 0 {
      QueueNeeds(l, a);
      LongestPrefix(l.need, QueueAt(l.queue, a), Avail(l, a) + 1, n);
      assert QueueAt(l.queue, a)[..n] == QueueAt(l.queue, a);
    }
  }

  /** However negative the value is, because of waiters or because of waiters
      killed since, the drain ends with value 0 and an empty queue: all who
      waited are ready, in the order in which they waited. */
  lemma {:induction false} DrainWakesAll(l: Lists, a: int)
    requires Inv(l) && Val(l.sem, a) < 0
    ensures Drain(l, a) == Woken(l, a, |QueueAt(l.queue, a)|).(sem := l.sem[a := 0])
  {
    DrainIsWakeMany(l, a);
    WokenIsWakeMany(l, a, |QueueAt(l.queue, a)|);
  }

  /** n signals to a. */
  function Signals(a: int, n: nat): seq<Op> {
    if n == 0 then [] else [Release(a, 1)] + Signals(a, n - 1)
  }

  /** The drain is a run of as many signals as the value is below zero. */
  lemma {:induction false} DrainIsSignals(l: Lists, a: int, n: nat)
    requires n == if Val(l.sem, a) < 0 then -Val(l.sem, a) else 0
    ensures Run(l, Signals(a, n)) == Drain(l, a) && Legal(l, Signals(a, n))
    decreases n
  {
    if n > 0 {
      DrainIsSignals(AfterRelease(l, a, 1), a, n - 1);
      assert Signals(a, n)[1..] == Signals(a, n - 1);
    }
  }

  /** How many processes queued at a the run kills. */
  ghost function WaitersKilled(l: Lists, ops: seq<Op>, a: int): nat
    decreases |ops|
  {
    if ops == [] then 0 else (if KillsWaiter(l, ops[0], a) then 1 else 0) + WaitersKilled(Apply(l, ops[0]), ops[1..], a)
  }

  /** The operations between two ticks: only waits at a, of weight 1. */
  predicate OnlyWaits(ops: seq<Op>, a: int) {
    forall i :: 0 <= i < |ops| ==> !(ops[i].Release? && ops[i].a == a) && (ops[i].Request? && ops[i].a == a ==> ops[i].w == -1)
  }

  /** Between two ticks the clock semaphore holds minus the number of its
      waiters and of its waiters killed since. */
  lemma {:induction false} ClockDeficit(l: Lists, ops: seq<Op>, a: int, j: nat)
    requires Inv(l) && Legal(l, ops) && IsDevice(l, a) && OnlyWaits(ops, a) && Val(l.sem, a) == -(|QueueAt(l.queue, a)| + j)
    ensures Val(Run(l, ops).sem, a) == -(|QueueAt(Run(l, ops).queue, a)| + j + WaitersKilled(l, ops, a))
    decreases |ops|
  {
    if ops != [] {
      var op, m, q := ops[0], Apply(l, ops[0]), QueueAt(l.queue, a);
      InvPreserved(l, op);
      Shape(l, op);
      LocalAlways(l, op, a);
      QueueNeeds(l, a);
      if KillsWaiter(l, op, a) {
        assert op.p in q && |Without(q, op.p)| == |q| - 1;
      }
      assert OnlyWaits(ops[1..], a);
      ClockDeficit(m, ops[1..], a, if KillsWaiter(l, op, a) then j + 1 else j);
    }
  }

  // ----- descriptors ---------------------------------------------------------

  lemma {:induction false} DistinctBound(s: seq<int>, t: set<int>)
    requires Distinct(s) && forall x :: x in s ==> x in t
    ensures |s| <= |t|
  {
    if s != [] {
      DistinctTail(s);
      DistinctBound(s[1..], t - {s[0]});
    }
  }

  /** Active semaphores are at most as many as blocked processes. */
  lemma {:induction false} ActiveBound(l: Lists, addrs: seq<int>)
    requires Placed(l) && Distinct(addrs) && forall a :: a in addrs ==> a in l.queue
    ensures |addrs| <= |Waiting(l)|
  {
    var heads := seq(|addrs|, i requires 0 <= i < |addrs| => QueueAt(l.queue, addrs[i])[..1]);
    var hs := seq(|addrs|, i requires 0 <= i < |addrs| => if heads[i] == [] then 0 else heads[i][0]);
    forall i | 0 <= i < |hs|
      ensures Is(l, hs[i], Blocked(addrs[i])) && IndexOf(hs, hs[i]) == i
    {
      var j := IndexOf(hs, hs[i]);
      assert addrs[i] in addrs && addrs[j] in addrs;
      assert hs[i] == l.queue[addrs[i]][0] && hs[i] in l.queue[addrs[i]];
      assert hs[j] == l.queue[addrs[j]][0] && hs[j] in l.queue[addrs[j]];
    }
    DistinctBound(hs, Waiting(l));
  }

  /** While a process runs, fewer than all processes are blocked. */
  lemma {:induction false} RunningIsNotWaiting(l: Lists, p: int)
    requires Is(l, p, Off)
    ensures |Waiting(l)| < |l.status|
  {
    SubsetSize(Waiting(l), Range(|l.status|) - {p});
  }

  ghost function Range(n: nat): (r: set<int>)
    ensures |r| == n && forall i :: i in r <==> 0 <= i < n
  {
    if n == 0 then {} else Range(n - 1) + {n - 1}
  }

  lemma SubsetSize(s: set<int>, t: set<int>)
    requires s <= t
    ensures |s| <= |t|
  {
    assert t == s + (t - s) && s !! t - s;
  }

  // ----- counters -------------------------------------------------------------

  /** process_count counts the PCBs that are not free. */
  lemma {:induction false} ProcessCountMeaning(l: Lists)
    requires Inv(l)
    ensures l.processCount + |l.free| == |l.status|
  {
    var f := set p | 0 <= p < |l.status| && l.status[p] == Free;
    assert f == Members(l.free);
    MembersSize(l.free);
    assert Range(|l.status|) == Live(l) + f && Live(l) !! f;
  }

  lemma {:induction false} MembersSize(s: seq<int>)
    requires Distinct(s)
    ensures |Members(s)| == |s|
  {
    if s == [] {
      assert Members(s) == {};
    } else {
      DistinctTail(s);
      assert Members(s) == {s[0]} + Members(s[1..]);
      MembersSize(s[1..]);
    }
  }

  /** With nobody ready and nobody running, every live process is blocked, so
      the two counters agree. */
  lemma {:induction false} IdleCounters(l: Lists)
    requires Inv(l) && l.ready == [] && forall p {:trigger Is(l, p, Off)} :: !Is(l, p, Off)
    ensures l.processCount == l.softBlockCount
  {
    forall p | p in Live(l)
      ensures p in Waiting(l)
    {
      assert p !in l.ready && !Is(l, p, Off);
    }
    assert Live(l) == Waiting(l);
  }

  // ----- round robin ------------------------------------------------------------

  function Dispatches(ops: seq<Op>): nat {
    if ops == [] then 0 else (if ops[0].Dispatch? then 1 else 0) + Dispatches(ops[1..])
  }

  /** The run dispatches p at some point. */
  ghost predicate Served(l: Lists, ops: seq<Op>, p: int)
    decreases |ops|
  {
    ops != [] && ((ops[0].Dispatch? && l.ready != [] && l.ready[0] == p) || Served(Apply(l, ops[0]), ops[1..], p))
  }

  /** A ready process only moves forward, by one place with every dispatch. */
  lemma {:induction false} ReadyMovesForward(l: Lists, op: Op, p: int)
    requires Inv(l) && Enabled(l, op) && op != Kill(p) && p in l.ready
    requires op.Dispatch? ==> l.ready[0] != p
    ensures p in Apply(l, op).ready
    ensures IndexOf(Apply(l, op).ready, p) + (if op.Dispatch? then 1 else 0) <= IndexOf(l.ready, p)
  {
    InvPreserved(l, op);
    var i, m := IndexOf(l.ready, p), Apply(l, op);
    match op
    case Release(a, w) =>
      var k := ReleaseWakesLongestPrefix(l, a, w);
      assert m.ready[i] == p;
    case Kill(v) =>
      WithoutDistinct(l.ready, v);
      if v in l.ready {
        var j := if i < IndexOf(l.ready, v) then i else i - 1;
        assert m.ready[j] == p;
      }
    case Dispatch =>
      assert m.ready[i - 1] == p;
    case Request(_, _, _) =>
    case Reap(_) =>
    case Spawn =>
      assert m.ready[i] == p;
    case Requeue(_) =>
      assert m.ready[i] == p;
  }

  /** Bounded waiting: a process at index i of the ready queue is running after
      at most i + 1 dispatches, unless it is killed. */
  lemma {:induction false} RoundRobin(l: Lists, ops: seq<Op>, p: int)
    requires Inv(l) && Legal(l, ops) && p in l.ready && Kill(p) !in ops
    ensures Dispatches(ops) > IndexOf(l.ready, p) ==> Served(l, ops, p)
    ensures !Served(l, ops, p) ==>
      p in Run(l, ops).ready && IndexOf(Run(l, ops).ready, p) + Dispatches(ops) <= IndexOf(l.ready, p)
    decreases |ops|
  {
    if ops != [] && !(ops[0].Dispatch? && l.ready[0] == p) {
      assert ops[0] in ops;
      ReadyMovesForward(l, ops[0], p);
      InvPreserved(l, ops[0]);
      RoundRobin(Apply(l, ops[0]), ops[1..], p);
    }
  }
}
