/** The Active Semaphore List (source/asl.c): a list of descriptors sorted by
    address, each with a queue of blocked processes, refines a map from
    addresses to non-empty queues. */
module ActiveSemaphores {
  import opened Clist
  import opened Lists
  import opened Model
  import opened Memory
  import opened PcbQueues

  /** findSemd: the early exit on a greater address loses nothing. */
  method FindSemd(sLink: array<int>, semds: array<Semd>, semh: int, semAdd: int, ghost asl: seq<int>) returns (r: int)
    requires IsRing(sLink[..], semh, asl) && semds.Length == sLink.Length && Sorted(semds[..], asl)
    ensures r != NULL ==> r in asl && 0 <= r < semds.Length && semds[r].semAdd == semAdd
    ensures r == NULL ==> forall d :: d in asl && 0 <= d < semds.Length ==> semds[d].semAdd != semAdd
  {
    r := NULL;
    if semh != NULL {
      assert sLink[..][asl[|asl| - 1]] == After(asl, |asl| - 1);
      var scan, tmp := sLink[semh], NULL;
      ghost var i := 0;
      while tmp != semh
        invariant 0 <= i <= |asl| && scan == (if i < |asl| then asl[i] else asl[0]) && tmp == (if i == 0 then NULL else asl[i - 1])
        invariant r == NULL && forall j :: 0 <= j < i ==> semds[asl[j]].semAdd != semAdd
        decreases |asl| - i
      {
        assert scan == asl[i];
        if semAdd == semds[scan].semAdd {
          return scan;
        } else if semAdd < semds[scan].semAdd {
          forall d | d in asl && 0 <= d < semds.Length
            ensures semds[d].semAdd != semAdd
          {
            var j := IndexOf(asl, d);
            assert j > i ==> semds[..][asl[i]].semAdd < semds[..][asl[j]].semAdd;
          }
          return NULL;
        }
        assert sLink[..][asl[i]] == After(asl, i);
        tmp := scan;
        scan := sLink[scan];
        i := i + 1;
      }
    }
  }

  /** a's place in the list: behind the smaller addresses, before the greater. */
  ghost predicate Place(sd: seq<Semd>, asl: seq<int>, a: int, k: int) {
    && 0 <= k <= |asl|
    && (forall i {:trigger asl[i]} :: 0 <= i < |asl| && 0 <= asl[i] < |sd| ==> if i < k then sd[asl[i]].semAdd < a else a < sd[asl[i]].semAdd)
  }

  /** The sorted insertion of insertBlocked: once, at the ordered place, be it
      before the head, in the middle, behind the tail or in an empty list. */
  method InsertSorted(sLink: array<int>, semds: array<Semd>, aslh: int, s: int, ghost asl: seq<int>)
    returns (aslh': int, ghost k: nat, ghost asl': seq<int>)
    requires IsRing(sLink[..], aslh, asl) && semds.Length == sLink.Length && Sorted(semds[..], asl)
    requires 0 <= s < sLink.Length && s !in asl
    requires forall d :: d in asl && 0 <= d < semds.Length ==> semds[d].semAdd != semds[s].semAdd
    modifies sLink
    ensures Place(semds[..], asl, semds[s].semAdd, k)
    ensures IsInsertion(asl, k, s, asl') && IsRing(sLink[..], aslh', asl')
    ensures SameOff(old(sLink[..]), sLink[..], asl + [s])
  {
    hide Place, IsInsertion;
    aslh', k, asl' := aslh, 0, asl;
    var tmp := NULL;
    if aslh != NULL {
      assert sLink[..][asl[|asl| - 1]] == After(asl, |asl| - 1);
      var scan := sLink[aslh];
      while tmp != aslh
        invariant k <= |asl| && scan == (if k < |asl| then asl[k] else asl[0]) && tmp == (if k == 0 then NULL else asl[k - 1])
        invariant aslh' == aslh && sLink[..] == old(sLink[..])
        invariant forall j {:trigger asl[j]} :: 0 <= j < k ==> semds[asl[j]].semAdd < semds[s].semAdd
        decreases |asl| - k
      {
        assert scan == asl[k] && asl[k] in asl;
        if semds[s].semAdd < semds[scan].semAdd {
          PlaceFound(semds[..], asl, s, k);
          aslh' := ForeachAdd(sLink, aslh, s, scan, tmp, asl, k);
          asl' := asl[..k] + [s] + asl[k..];
          InsertionHere(asl, k, s);
          return;
        }
        assert sLink[..][asl[k]] == After(asl, k);
        tmp := scan;
        scan := sLink[scan];
        k := k + 1;
      }
    }
    if aslh == NULL || tmp == aslh {
      assert k == |asl|;
      aslh' := Enqueue(sLink, aslh, s, asl);
      asl' := asl + [s];
      InsertionLast(asl, s);
      PlaceLast(semds[..], asl, s);
    }
  }

  lemma InsertionHere(q: seq<int>, k: nat, e: int)
    requires k < |q|
    ensures IsInsertion(q, k, e, q[..k] + [e] + q[k..])
  {
  }

  lemma InsertionLast(q: seq<int>, e: int)
    ensures IsInsertion(q, |q|, e, q + [e])
  {
  }

  lemma PlaceFound(sd: seq<Semd>, asl: seq<int>, s: int, k: nat)
    requires Sorted(sd, asl) && k < |asl| && 0 <= s < |sd| && 0 <= asl[k] < |sd| && sd[s].semAdd < sd[asl[k]].semAdd
    requires forall j {:trigger asl[j]} :: 0 <= j < k && 0 <= asl[j] < |sd| ==> sd[asl[j]].semAdd < sd[s].semAdd
    ensures Place(sd, asl, sd[s].semAdd, k)
  {
    forall i | k < i < |asl| && 0 <= asl[i] < |sd|
      ensures sd[s].semAdd < sd[asl[i]].semAdd
    {
      assert sd[asl[k]].semAdd < sd[asl[i]].semAdd;
    }
  }

  lemma PlaceLast(sd: seq<Semd>, asl: seq<int>, s: int)
    requires 0 <= s < |sd|
    requires forall j {:trigger asl[j]} :: 0 <= j < |asl| && 0 <= asl[j] < |sd| ==> sd[asl[j]].semAdd < sd[s].semAdd
    ensures Place(sd, asl, sd[s].semAdd, |asl|)
  {
  }

  lemma SortedInsert(sd: seq<Semd>, asl: seq<int>, s: int, k: nat, r: seq<int>)
    requires Sorted(sd, asl) && 0 <= s < |sd| && Place(sd, asl, sd[s].semAdd, k) && IsInsertion(asl, k, s, r)
    ensures Sorted(sd, r)
  {
  }

  // ----- rings that an operation on the queue of a leaves alone -------------------

  /** pl' differs from pl only on links of p and of the processes queued at a. */
  ghost predicate OnlyAt(l: Lists, pl: seq<int>, pl': seq<int>, a: int, p: int) {
    |pl'| == |pl| == |l.status| && forall x {:trigger pl'[x]} :: 0 <= x < |pl| && x != p && l.status[x] != Blocked(a) ==> pl'[x] == pl[x]
  }

  lemma OnlyAtFrom(l: Lists, pl: seq<int>, pl': seq<int>, a: int, p: int, q: seq<int>)
    requires SameOff(pl, pl', q) && |pl| == |l.status|
    requires forall x :: x in q ==> x == p || Is(l, x, Blocked(a))
    ensures OnlyAt(l, pl, pl', a, p)
  {
  }

  lemma OnlyAtFree(m: Mem, pl': seq<int>, a: int, p: int, st: Status)
    requires Rep(m) && OnlyAt(m.l, m.pl, pl', a, p) && 0 <= p < |m.pl|
    requires m.l.status[p] == Off || m.l.status[p] == Blocked(a)
    requires st != Ready
    ensures IsRing(pl', m.pcbFree, m.l.free)
    ensures StillLinked(pl', m.readyQueue, m.l.ready, Put(m.l.status, p, st))
  {
    forall i | 0 <= i < |m.l.free|
      ensures pl'[m.l.free[i]] == After(m.l.free, i)
    {
      assert m.l.free[i] in m.l.free && m.pl[m.l.free[i]] == After(m.l.free, i);
    }
  }

  /** The queue of a, at descriptor d, becomes q. */
  lemma QueueRepSet(m: Mem, pl': seq<int>, sd': seq<Semd>, a: int, p: int, d: int, q: seq<int>)
    requires QueuesPlaced(m.l) && QueueRep(m.pl, m.sd, m.asl, m.owner, m.l.queue) && OnlyAt(m.l, m.pl, pl', a, p)
    requires 0 <= p < |m.pl| && (m.l.status[p] == Off || m.l.status[p] == Blocked(a))
    requires 0 <= d < |m.sd| == |sd'| && d in m.asl && m.sd[d].semAdd == a && sd' == m.sd[d := sd'[d]] && sd'[d].semAdd == a
    requires IsRing(pl', sd'[d].procq, q)
    ensures QueueRep(pl', sd', m.asl, m.owner, m.l.queue[a := q])
  {
    forall e | e in m.asl && e != d
      ensures 0 <= e < |sd'| && sd'[e].semAdd in m.l.queue && sd'[e].semAdd != a && m.owner[sd'[e].semAdd] == e
      ensures IsRing(pl', sd'[e].procq, m.l.queue[sd'[e].semAdd])
    {
      var b := m.sd[e].semAdd;
      assert m.owner[b] == e && m.owner[a] == d;
      var r := m.l.queue[b];
      forall i | 0 <= i < |r|
        ensures pl'[r[i]] == After(r, i)
      {
        assert r[i] in m.l.queue[b] && m.pl[r[i]] == After(r, i);
      }
    }
  }

  lemma EnqueuedPlaced(l: Lists, p: int, a: int)
    requires QueuesPlaced(l) && Is(l, p, Off)
    ensures QueuesPlaced(Enqueued(l, p, a))
  {
    assert p !in QueueAt(l.queue, a);
    DistinctConcat(QueueAt(l.queue, a), [p]);
  }

  lemma CursemSet(m: Mem, p: int, a: int, d: int, owner': map<int, int>)
    requires Rep(m) && Is(m.l, p, Off) && a in owner' && owner'[a] == d
    requires forall b {:trigger owner'[b]} {:trigger m.owner[b]} :: b in m.owner ==> b in owner' && owner'[b] == m.owner[b]
    ensures var ps := Put(m.ps, p, m.ps[p].(cursem := d));
      && FieldsRep(ps, m.l.need, m.t, m.kt, m.gt) && KidsRep(ps, m.sib, m.t.children)
      && CursemRep(ps, owner', Put(m.l.status, p, Blocked(a)))
  {
    var ps := Put(m.ps, p, m.ps[p].(cursem := d));
    assert forall x {:trigger m.t.children[x]} :: 0 <= x < |ps| ==> ps[x].kids == m.ps[x].kids;
  }

  // ----- insertBlocked ---------------------------------------------------------------

  lemma JoinRep(m: Mem, p: int, a: int, d: int, m': Mem)
    requires Rep(m) && Is(m.l, p, Off) && a in m.owner && m.owner[a] == d && 0 <= d < |m.sd| == |m'.sd|
    requires m' == m.(pl := m'.pl, sd := m.sd[d := m'.sd[d]], ps := Put(m.ps, p, m.ps[p].(cursem := d)), l := Enqueued(m.l, p, a))
    requires m'.sd[d].semAdd == a && IsRing(m'.pl, m'.sd[d].procq, QueueAt(m.l.queue, a) + [p])
    requires SameOff(m.pl, m'.pl, QueueAt(m.l.queue, a) + [p])
    ensures Rep(m')
  {
    var q := QueueAt(m.l.queue, a) + [p];
    JoinOnly(m, m'.pl, p, a);
    OnlyAtFree(m, m'.pl, a, p, Blocked(a));
    QueueRepSet(m, m'.pl, m'.sd, a, p, d, q);
    AslTail(m, d, m'.sd);
    EnqueuedPlaced(m.l, p, a);
    CursemSet(m, p, a, d, m.owner);
  }

  /** The queue entry of an active descriptor is no business of the ASL. */
  lemma AslTail(m: Mem, d: int, sd': seq<Semd>)
    requires AslRep(m.sl, m.sd, m.aslh, m.semdFree, m.asl, m.sfree) && d in m.asl && 0 <= d < |m.sd| == |sd'|
    requires sd' == m.sd[d := sd'[d]] && sd'[d].semAdd == m.sd[d].semAdd
    ensures AslRep(m.sl, sd', m.aslh, m.semdFree, m.asl, m.sfree)
  {
    assert Sorted(sd', m.asl);
    forall e | e in m.sfree
      ensures sd'[e].procq == NULL
    {
      assert e != d;
    }
  }

  lemma JoinOnly(m: Mem, pl': seq<int>, p: int, a: int)
    requires QueuesPlaced(m.l) && |m.pl| == |m.l.status| && SameOff(m.pl, pl', QueueAt(m.l.queue, a) + [p])
    ensures OnlyAt(m.l, m.pl, pl', a, p)
  {
    forall x | x in QueueAt(m.l.queue, a)
      ensures Is(m.l, x, Blocked(a))
    {
      assert x in m.l.queue[a];
    }
    OnlyAtFrom(m.l, m.pl, pl', a, p, QueueAt(m.l.queue, a) + [p]);
  }

  lemma JoinStart(m: Mem, p: int, a: int, d: int)
    requires Rep(m) && Is(m.l, p, Off) && d in m.asl && 0 <= d < |m.sd| && m.sd[d].semAdd == a
    ensures Sized(m) && a in m.owner && m.owner[a] == d && a in m.l.queue
    ensures IsRing(m.pl, m.sd[d].procq, QueueAt(m.l.queue, a)) && p !in QueueAt(m.l.queue, a)
  {
  }

  /** The semaphore has a descriptor: p joins its queue. */
  method JoinQueue(k: Kernel, semAdd: int, p: int, d: int)
    requires k.Core() && Is(k.l, p, Off) && d in k.asl && 0 <= d < k.n && k.semds[d].semAdd == semAdd
    modifies k`l, k.pList, k.pcbs, k.semds
    ensures k.Core() && k.l == Enqueued(old(k.l), p, semAdd)
    ensures k.pcbs[..] == Put(old(k.pcbs[..]), p, old(k.pcbs[..])[p].(cursem := d))
  {
    hide Rep;
    ghost var m := k.Snap();
    JoinStart(m, p, semAdd, d);
    k.pcbs[p] := k.pcbs[p].(cursem := d);
    var q := InsertProcQ(k.pList, k.semds[d].procq, p, QueueAt(m.l.queue, semAdd));
    k.semds[d] := Semd(semAdd, q);
    k.l := Enqueued(m.l, p, semAdd);
    JoinRep(m, p, semAdd, d, k.Snap());
  }

  lemma OpenRep(m: Mem, p: int, a: int, d: int, i: nat, m': Mem)
    requires Rep(m) && Is(m.l, p, Off) && a !in m.l.queue && m.sfree != [] && d == m.sfree[0] && i <= |m.asl| && |m'.sd| == |m.sd|
    requires 0 <= d < |m.sd|
    requires m' == m.(pl := m'.pl, sl := m'.sl, sd := m.sd[d := m'.sd[d]], ps := Put(m.ps, p, m.ps[p].(cursem := d)),
                      aslh := m'.aslh, semdFree := m'.semdFree, asl := m'.asl, sfree := Rest(m.sfree),
                      owner := m.owner[a := d], l := Enqueued(m.l, p, a))
    requires m'.sd[d].semAdd == a && IsRing(m'.pl, m'.sd[d].procq, [p]) && SameOff(m.pl, m'.pl, [p])
    requires |m'.sl| == |m.sl| && IsRing(m'.sl, m'.aslh, m'.asl) && IsRing(m'.sl, m'.semdFree, m'.sfree)
    requires IsInsertion(m.asl, i, d, m'.asl) && Place(m'.sd, m.asl, a, i)
    ensures Rep(m')
  {
    assert d in m.sfree && d !in m.asl;
    OpenAsl(m, a, d, i, m');
    OnlyAtFrom(m.l, m.pl, m'.pl, a, p, [p]);
    OnlyAtFree(m, m'.pl, a, p, Blocked(a));
    OpenQueues(m, p, a, d, m');
    EnqueuedPlaced(m.l, p, a);
    CursemSet(m, p, a, d, m.owner[a := d]);
  }

  lemma OpenAsl(m: Mem, a: int, d: int, i: nat, m': Mem)
    requires AslRep(m.sl, m.sd, m.aslh, m.semdFree, m.asl, m.sfree) && m.sfree != [] && d == m.sfree[0] && i <= |m.asl|
    requires |m'.sd| == |m.sd| == |m'.sl| && 0 <= d < |m.sd| && m'.sd == m.sd[d := m'.sd[d]] && m'.sd[d].semAdd == a
    requires IsRing(m'.sl, m'.aslh, m'.asl) && IsRing(m'.sl, m'.semdFree, m'.sfree) && m'.sfree == Rest(m.sfree)
    requires IsInsertion(m.asl, i, d, m'.asl) && Place(m'.sd, m.asl, a, i)
    ensures AslRep(m'.sl, m'.sd, m'.aslh, m'.semdFree, m'.asl, m'.sfree)
    ensures forall e :: e in m'.asl <==> e in m.asl || e == d
  {
    assert d in m.sfree;
    TailMembers(m.sfree);
    InsertionMembers(m.asl, i, d, m'.asl);
    assert Sorted(m'.sd, m.asl);
    SortedInsert(m'.sd, m.asl, d, i, m'.asl);
  }

  lemma InsertionMembers(q: seq<int>, i: nat, e: int, r: seq<int>)
    requires i <= |q| && IsInsertion(q, i, e, r)
    ensures forall x :: x in r <==> x in q || x == e
  {
    forall x | x in q
      ensures x in r
    {
      var j := IndexOf(q, x);
      assert r[if j < i then j else j + 1] == x;
    }
    assert r[i] == e;
  }

  lemma OpenQueues(m: Mem, p: int, a: int, d: int, m': Mem)
    requires QueuesPlaced(m.l) && QueueRep(m.pl, m.sd, m.asl, m.owner, m.l.queue) && OnlyAt(m.l, m.pl, m'.pl, a, p)
    requires Is(m.l, p, Off) && a !in m.l.queue && d !in m.asl && 0 <= d < |m.sd| == |m'.sd|
    requires m'.sd == m.sd[d := m'.sd[d]] && m'.sd[d].semAdd == a && IsRing(m'.pl, m'.sd[d].procq, [p])
    requires forall e :: e in m'.asl <==> e in m.asl || e == d
    ensures QueueRep(m'.pl, m'.sd, m'.asl, m.owner[a := d], m.l.queue[a := QueueAt(m.l.queue, a) + [p]])
  {
    forall e | e in m.asl
      ensures IsRing(m'.pl, m'.sd[e].procq, m.l.queue[m'.sd[e].semAdd])
    {
      var r := m.l.queue[m.sd[e].semAdd];
      forall i | 0 <= i < |r|
        ensures m'.pl[r[i]] == After(r, i)
      {
        assert r[i] in m.l.queue[m.sd[e].semAdd] && m.pl[r[i]] == After(r, i);
      }
    }
    assert QueueAt(m.l.queue, a) + [p] == [p];
  }

  lemma AslParts(m: Mem)
    requires Rep(m)
    ensures Sized(m) && IsRing(m.sl, m.aslh, m.asl) && Sorted(m.sd, m.asl) && IsRing(m.sl, m.semdFree, m.sfree)
    ensures forall d :: d in m.sfree ==> 0 <= d < |m.sd| && d !in m.asl
  {
  }

  /** The first free descriptor is taken off its list (source/asl.c:77-78). */
  method TakeSemd(sLink: array<int>, semdFree: int, aslh: int, ghost sfree: seq<int>, ghost asl: seq<int>)
    returns (semdFree': int, n: int)
    requires IsRing(sLink[..], semdFree, sfree) && sfree != [] && IsRing(sLink[..], aslh, asl)
    requires forall d :: d in sfree ==> d !in asl
    modifies sLink
    ensures n == sfree[0] && 0 <= n < sLink.Length && n !in asl
    ensures IsRing(sLink[..], semdFree', Rest(sfree)) && IsRing(sLink[..], aslh, asl)
    ensures forall d :: d in Rest(sfree) ==> d !in asl + [n]
  {
    assert sLink[..][sfree[|sfree| - 1]] == After(sfree, |sfree| - 1) && sfree[0] in sfree;
    TailMembers(sfree);
    n := sLink[semdFree];
    semdFree' := Dequeue(sLink, semdFree, sfree);
    RingKept(old(sLink[..]), sLink[..], aslh, asl, Rest(sfree));
  }

  /** The sorted insertion leaves the free descriptors alone. */
  method ListSemd(sLink: array<int>, semds: array<Semd>, aslh: int, n: int, ghost asl: seq<int>, ghost free: int, ghost rest: seq<int>)
    returns (aslh': int, ghost i: nat, ghost asl': seq<int>)
    requires IsRing(sLink[..], aslh, asl) && IsRing(sLink[..], free, rest) && semds.Length == sLink.Length && Sorted(semds[..], asl)
    requires 0 <= n < sLink.Length && n !in asl && forall d :: d in rest ==> d !in asl + [n]
    requires forall d :: d in asl && 0 <= d < semds.Length ==> semds[d].semAdd != semds[n].semAdd
    modifies sLink
    ensures Place(semds[..], asl, semds[n].semAdd, i)
    ensures IsInsertion(asl, i, n, asl') && IsRing(sLink[..], aslh', asl') && IsRing(sLink[..], free, rest)
  {
    aslh', i, asl' := InsertSorted(sLink, semds, aslh, n, asl);
    RingKept(old(sLink[..]), sLink[..], free, rest, asl + [n]);
  }

  lemma NewAddress(m: Mem, a: int, d: int, sd': seq<Semd>)
    requires Rep(m) && a !in m.l.queue && d !in m.asl && 0 <= d < |m.sd| == |sd'| && sd' == m.sd[d := sd'[d]]
    ensures Sorted(sd', m.asl) && forall e :: e in m.asl && 0 <= e < |sd'| ==> sd'[e].semAdd != a
  {
  }

  /** Descriptor n gets its address and its first process (source/asl.c:80-83). */
  method StartQueue(k: Kernel, semAdd: int, p: int, n: int)
    requires k.Apart() && 0 <= p < k.n && 0 <= n < k.n
    modifies k.pList, k.pcbs, k.semds
    ensures k.pcbs[..] == Put(old(k.pcbs[..]), p, old(k.pcbs[..])[p].(cursem := n))
    ensures k.semds[..] == old(k.semds[..])[n := k.semds[n]] && k.semds[n].semAdd == semAdd
    ensures IsRing(k.pList[..], k.semds[n].procq, [p]) && SameOff(old(k.pList[..]), k.pList[..], [p])
  {
    k.pcbs[p] := k.pcbs[p].(cursem := n);
    var q := InsertProcQ(k.pList, NULL, p, []);
    k.semds[n] := Semd(semAdd, q);
    assert [] + [p] == [p];
  }

  /** The links of the ASL around the first process of a new descriptor. */
  method NewSemd(k: Kernel, semAdd: int, p: int) returns (n: int, ghost i: nat, ghost asl': seq<int>)
    requires k.Core() && Is(k.l, p, Off) && k.sfree != [] && semAdd !in k.l.queue
    modifies k`aslh, k`semdFree, k.pList, k.pcbs, k.semds, k.sLink
    ensures n == k.sfree[0] && 0 <= n < k.n && i <= |k.asl|
    ensures k.pcbs[..] == Put(old(k.pcbs[..]), p, old(k.pcbs[..])[p].(cursem := n))
    ensures k.semds[..] == old(k.semds[..])[n := k.semds[n]] && k.semds[n].semAdd == semAdd
    ensures IsRing(k.pList[..], k.semds[n].procq, [p]) && SameOff(old(k.pList[..]), k.pList[..], [p])
    ensures Place(k.semds[..], k.asl, semAdd, i) && IsInsertion(k.asl, i, n, asl')
    ensures IsRing(k.sLink[..], k.aslh, asl') && IsRing(k.sLink[..], k.semdFree, Rest(k.sfree))
  {
    hide Rep, IsRing, SameOff, Place, IsInsertion, Distinct;
    ghost var m := k.Snap();
    AslParts(m);
    k.semdFree, n := TakeSemd(k.sLink, k.semdFree, k.aslh, m.sfree, m.asl);
    StartQueue(k, semAdd, p, n);
    NewAddress(m, semAdd, n, k.semds[..]);
    k.aslh, i, asl' := ListSemd(k.sLink, k.semds, k.aslh, n, m.asl, k.semdFree, Rest(m.sfree));
  }

  /** The semaphore has no descriptor: the first free one is put in the ASL. */
  method OpenQueue(k: Kernel, semAdd: int, p: int)
    requires k.Core() && Is(k.l, p, Off) && k.sfree != [] && semAdd !in k.l.queue
    modifies k`l, k`asl, k`sfree, k`owner, k`aslh, k`semdFree, k.pList, k.pcbs, k.semds, k.sLink
    ensures k.Core() && k.l == Enqueued(old(k.l), p, semAdd)
  {
    hide Rep, IsRing, SameOff, Place, IsInsertion, Is;
    ghost var m := k.Snap();
    ghost var i, asl';
    var n;
    n, i, asl' := NewSemd(k, semAdd, p);
    k.Means(Enqueued(m.l, p, semAdd), asl', Rest(m.sfree), m.owner[semAdd := n]);
    OpenRep(m, p, semAdd, n, i, k.Snap());
  }

  /** What findSemd found, said of the map. */
  lemma FindMeans(m: Mem, a: int, r: int)
    requires Rep(m)
    requires r != NULL ==> r in m.asl && 0 <= r < |m.sd| && m.sd[r].semAdd == a
    requires r == NULL ==> forall d :: d in m.asl && 0 <= d < |m.sd| ==> m.sd[d].semAdd != a
    ensures a in m.l.queue <==> r != NULL
    ensures r != NULL ==> a in m.owner && m.owner[a] == r && IsRing(m.pl, m.sd[r].procq, m.l.queue[a])
  {
    if a in m.l.queue {
      assert m.owner[a] in m.asl;
    }
  }

  /** insertBlocked: TRUE, and nothing done, iff a new descriptor is needed and
      none is free. */
  method InsertBlocked(k: Kernel, semAdd: int, p: int) returns (full: bool)
    requires k.Core() && Is(k.l, p, Off) && semAdd != 0
    modifies k`l, k`asl, k`sfree, k`owner, k`aslh, k`semdFree, k.pList, k.pcbs, k.semds, k.sLink
    ensures k.Core()
    ensures full <==> semAdd !in old(k.l.queue) && old(k.sfree) == []
    ensures full ==> k.Snap() == old(k.Snap())
    ensures !full ==> k.l == Enqueued(old(k.l), p, semAdd)
  {
    ghost var m := k.Snap();
    AslParts(m);
    var scan := FindSemd(k.sLink, k.semds, k.aslh, semAdd, k.asl);
    FindMeans(m, semAdd, scan);
    if scan != NULL {
      JoinQueue(k, semAdd, p, scan);
      return false;
    }
    if k.semdFree == NULL {
      return true;
    }
    OpenQueue(k, semAdd, p);
    full := false;
  }

  /** headBlocked: the head of the queue of semAdd, or NULL. */
  method HeadBlocked(k: Kernel, semAdd: int) returns (p: int)
    requires k.Core()
    ensures p == Head(QueueAt(k.l.queue, semAdd))
  {
    ghost var m := k.Snap();
    AslParts(m);
    var scan := FindSemd(k.sLink, k.semds, k.aslh, semAdd, k.asl);
    FindMeans(m, semAdd, scan);
    if scan != NULL {
      p := HeadProcQ(k.pList, k.semds[scan].procq, m.l.queue[semAdd]);
    } else {
      p := NULL;
    }
  }

  // ----- removal ------------------------------------------------------------------------

  lemma UnlinkedPlaced(l: Lists, p: int, a: int)
    requires QueuesPlaced(l) && Is(l, p, Blocked(a))
    ensures QueuesPlaced(Unlinked(l, p, a))
  {
    WithoutDistinct(QueueAt(l.queue, a), p);
  }

  /** p_cursem of p may be cleared: p is no longer blocked. */
  ghost predicate CursemMay(ps: seq<Pcb>, ps': seq<Pcb>, p: int) {
    ps' == ps || (0 <= p < |ps| && ps' == Put(ps, p, ps[p].(cursem := NULL)))
  }

  lemma CursemLeft(m: Mem, p: int, a: int, ps': seq<Pcb>, owner': map<int, int>)
    requires Rep(m) && Is(m.l, p, Blocked(a)) && CursemMay(m.ps, ps', p)
    requires forall x {:trigger m.l.status[x]} :: 0 <= x < |m.pl| && x != p && m.l.status[x].Blocked? ==>
      m.l.status[x].addr in owner' && owner'[m.l.status[x].addr] == m.owner[m.l.status[x].addr]
    ensures FieldsRep(ps', m.l.need, m.t, m.kt, m.gt) && KidsRep(ps', m.sib, m.t.children)
    ensures CursemRep(ps', owner', Put(m.l.status, p, Off))
  {
    assert forall x {:trigger m.t.children[x]} :: 0 <= x < |ps'| ==> ps'[x].kids == m.ps[x].kids;
  }

  lemma LeaveOnly(m: Mem, pl': seq<int>, p: int, a: int)
    requires QueuesPlaced(m.l) && |m.pl| == |m.l.status| && Is(m.l, p, Blocked(a)) && SameOff(m.pl, pl', Without(QueueAt(m.l.queue, a), p))
    ensures OnlyAt(m.l, m.pl, pl', a, p)
  {
    WithoutDistinct(QueueAt(m.l.queue, a), p);
    forall x | x in Without(QueueAt(m.l.queue, a), p)
      ensures Is(m.l, x, Blocked(a))
    {
      assert x in m.l.queue[a];
    }
    OnlyAtFrom(m.l, m.pl, pl', a, p, Without(QueueAt(m.l.queue, a), p));
  }

  /** Others still queue where p did. */
  lemma LeaveRep(m: Mem, p: int, a: int, d: int, m': Mem)
    requires Rep(m) && Is(m.l, p, Blocked(a)) && a in m.owner && m.owner[a] == d && 0 <= d < |m.sd| == |m'.sd|
    requires m' == m.(pl := m'.pl, sd := m.sd[d := m'.sd[d]], ps := m'.ps, l := Unlinked(m.l, p, a))
    requires CursemMay(m.ps, m'.ps, p) && m'.sd[d].semAdd == a && Without(QueueAt(m.l.queue, a), p) != []
    requires IsRing(m'.pl, m'.sd[d].procq, Without(QueueAt(m.l.queue, a), p))
    requires SameOff(m.pl, m'.pl, Without(QueueAt(m.l.queue, a), p))
    ensures Rep(m')
  {
    LeaveOnly(m, m'.pl, p, a);
    OnlyAtFree(m, m'.pl, a, p, Off);
    QueueRepSet(m, m'.pl, m'.sd, a, p, d, Without(QueueAt(m.l.queue, a), p));
    AslTail(m, d, m'.sd);
    UnlinkedPlaced(m.l, p, a);
    CursemLeft(m, p, a, m'.ps, m.owner);
  }

  lemma CloseAsl(m: Mem, a: int, d: int, m': Mem)
    requires AslRep(m.sl, m.sd, m.aslh, m.semdFree, m.asl, m.sfree) && d in m.asl
    requires |m'.sd| == |m.sd| == |m'.sl| && 0 <= d < |m.sd| && m'.sd == m.sd[d := m'.sd[d]] && m'.sd[d].procq == NULL
    requires m'.asl == Without(m.asl, d) && m'.sfree == m.sfree + [d]
    requires IsRing(m'.sl, m'.aslh, m'.asl) && IsRing(m'.sl, m'.semdFree, m'.sfree)
    ensures AslRep(m'.sl, m'.sd, m'.aslh, m'.semdFree, m'.asl, m'.sfree)
  {
    WithoutDistinct(m.asl, d);
    SortedWithout(m.sd, m'.sd, m.asl, d);
  }

  lemma SortedWithout(sd: seq<Semd>, sd': seq<Semd>, asl: seq<int>, d: int)
    requires Sorted(sd, asl) && Distinct(asl) && d in asl && |sd| == |sd'| && 0 <= d < |sd| && sd' == sd[d := sd'[d]]
    ensures Sorted(sd', Without(asl, d))
  {
    var r, k := Without(asl, d), IndexOf(asl, d);
    WithoutDistinct(asl, d);
    forall i, j | 0 <= i < j < |r| && 0 <= r[i] < |sd| && 0 <= r[j] < |sd|
      ensures sd'[r[i]].semAdd < sd'[r[j]].semAdd
    {
      assert r[i] == asl[if i < k then i else i + 1] && r[j] == asl[if j < k then j else j + 1];
    }
  }

  lemma CloseQueues(m: Mem, p: int, a: int, d: int, m': Mem)
    requires QueuesPlaced(m.l) && QueueRep(m.pl, m.sd, m.asl, m.owner, m.l.queue) && OnlyAt(m.l, m.pl, m'.pl, a, p)
    requires Is(m.l, p, Blocked(a)) && a in m.owner && m.owner[a] == d && 0 <= d < |m.sd| == |m'.sd|
    requires m'.sd == m.sd[d := m'.sd[d]]
    requires forall e :: e in m'.asl <==> e in m.asl && e != d
    ensures QueueRep(m'.pl, m'.sd, m'.asl, m.owner - {a}, m.l.queue - {a})
  {
    forall e | e in m'.asl
      ensures m.sd[e].semAdd != a && IsRing(m'.pl, m'.sd[e].procq, m.l.queue[m'.sd[e].semAdd])
    {
      var b := m.sd[e].semAdd;
      assert m.owner[b] == e;
      var r := m.l.queue[b];
      forall i | 0 <= i < |r|
        ensures m'.pl[r[i]] == After(r, i)
      {
        assert r[i] in m.l.queue[b] && m.pl[r[i]] == After(r, i);
      }
    }
  }

  /** p was the last in the queue: the descriptor is freed. */
  lemma CloseRep(m: Mem, p: int, a: int, d: int, m': Mem)
    requires Rep(m) && Is(m.l, p, Blocked(a)) && a in m.owner && m.owner[a] == d && 0 <= d < |m.sd| == |m'.sd| == |m'.sl|
    requires m' == m.(pl := m'.pl, sl := m'.sl, sd := m.sd[d := m'.sd[d]], ps := m'.ps, aslh := m'.aslh, semdFree := m'.semdFree,
                      asl := Without(m.asl, d), sfree := m.sfree + [d], owner := m.owner - {a}, l := Unlinked(m.l, p, a))
    requires CursemMay(m.ps, m'.ps, p) && m'.sd[d].procq == NULL && Without(QueueAt(m.l.queue, a), p) == []
    requires SameOff(m.pl, m'.pl, Without(QueueAt(m.l.queue, a), p))
    requires IsRing(m'.sl, m'.aslh, m'.asl) && IsRing(m'.sl, m'.semdFree, m'.sfree)
    ensures Rep(m')
  {
    assert m.owner[a] in m.asl;
    LeaveOnly(m, m'.pl, p, a);
    OnlyAtFree(m, m'.pl, a, p, Off);
    CloseAsl(m, a, d, m');
    WithoutDistinct(m.asl, d);
    CloseQueues(m, p, a, d, m');
    UnlinkedPlaced(m.l, p, a);
    NobodyLeft(m.l, p, a);
    CursemLeft(m, p, a, m'.ps, m.owner - {a});
  }

  lemma NobodyLeft(l: Lists, p: int, a: int)
    requires QueuesPlaced(l) && Is(l, p, Blocked(a)) && Without(QueueAt(l.queue, a), p) == []
    ensures forall x {:trigger l.status[x]} :: 0 <= x < |l.status| && x != p && l.status[x].Blocked? ==> l.status[x].addr != a
  {
    WithoutDistinct(QueueAt(l.queue, a), p);
  }

  /** The descriptor leaves the ASL and joins the free ones (clist_delete and
      freeSemd, source/asl.c:116-117, 136-137). */
  method CloseSemd(k: Kernel, s: int, ghost asl: seq<int>, ghost sfree: seq<int>)
    requires k.Apart() && 0 <= s < k.n && s !in sfree && s in asl && forall d :: d in sfree ==> d !in asl
    requires IsRing(k.sLink[..], k.aslh, asl) && IsRing(k.sLink[..], k.semdFree, sfree)
    modifies k`aslh, k`semdFree, k.sLink
    ensures IsRing(k.sLink[..], k.aslh, Without(asl, s)) && IsRing(k.sLink[..], k.semdFree, sfree + [s])
  {
    WithoutDistinct(asl, s);
    ghost var sl0 := k.sLink[..];
    var ret;
    k.aslh, ret := Delete(k.sLink, k.aslh, s, asl);
    ghost var sl1 := k.sLink[..];
    RingKept(sl0, sl1, k.semdFree, sfree, Without(asl, s));
    k.semdFree := Enqueue(k.sLink, k.semdFree, s, sfree);
    RingKept(sl1, k.sLink[..], k.aslh, Without(asl, s), sfree + [s]);
  }

  /** The processes queued at descriptor d. */
  ghost function QueueOf(m: Mem, d: int): seq<int> {
    if d in m.asl && 0 <= d < |m.sd| then QueueAt(m.l.queue, m.sd[d].semAdd) else []
  }

  lemma QueueOfMeans(m: Mem, d: int)
    requires Rep(m) && 0 <= d < |m.sd|
    ensures Sized(m) && IsRing(m.pl, m.sd[d].procq, QueueOf(m, d))
    ensures forall x :: x in QueueOf(m, d) ==> Is(m.l, x, Blocked(m.sd[d].semAdd)) && m.ps[x].cursem == d
    ensures d in m.asl ==> m.sd[d].semAdd in m.owner && m.owner[m.sd[d].semAdd] == d
    ensures forall x :: x in m.sfree ==> x !in m.asl
    ensures IsRing(m.sl, m.aslh, m.asl) && IsRing(m.sl, m.semdFree, m.sfree)
  {
    if d in m.asl {
      forall x | x in QueueOf(m, d)
        ensures Is(m.l, x, Blocked(m.sd[d].semAdd)) && m.ps[x].cursem == d
      {
        assert x in m.l.queue[m.sd[d].semAdd];
      }
    } else {
      assert d in m.sfree;
    }
  }

  lemma BlockedIsQueued(m: Mem, p: int)
    requires Rep(m) && IsBlocked(m.l, p)
    ensures var d := m.ps[p].cursem; 0 <= d < |m.sd| && d in m.asl && p in QueueOf(m, d) && m.sd[d].semAdd == m.l.status[p].addr
  {
    var a := m.l.status[p].addr;
    assert m.owner[a] in m.asl;
  }

  /** The scan of outBlocked: p is taken out of the queue of s, if it is there. */
  method TakeOut(k: Kernel, p: int, s: int) returns (r: int)
    requires k.Core() && p != NULL && 0 <= s < k.n
    modifies k.pList, k.semds
    ensures r == if p in QueueOf(old(k.Snap()), s) then p else NULL
    ensures r == NULL ==> k.pList[..] == old(k.pList[..]) && k.semds[..] == old(k.semds[..])
    ensures k.semds[..] == old(k.semds[..])[s := k.semds[s]] && k.semds[s].semAdd == old(k.semds[s].semAdd)
    ensures var q := Without(QueueOf(old(k.Snap()), s), p);
      IsRing(k.pList[..], k.semds[s].procq, q) && SameOff(old(k.pList[..]), k.pList[..], q)
  {
    ghost var m := k.Snap();
    QueueOfMeans(m, s);
    var q;
    q, r := OutProcQ(k.pList, k.semds[s].procq, p, QueueOf(m, s));
    k.semds[s] := k.semds[s].(procq := q);
  }

  /** What is left once p is out of the queue of d. */
  method Leave(k: Kernel, ghost m: Mem, p: int, d: int, ghost ps: seq<Pcb>)
    requires k.Apart() && Rep(m) && k.n == |m.pl| && p in QueueOf(m, d) && 0 <= d < k.n && d in m.asl && CursemMay(m.ps, ps, p)
    requires k.semds[..] == m.sd[d := k.semds[d]] && k.semds[d].semAdd == m.sd[d].semAdd
    requires k.Snap() == m.(pl := k.pList[..], sd := k.semds[..], ps := ps)
    requires var q := Without(QueueOf(m, d), p); IsRing(k.pList[..], k.semds[d].procq, q) && SameOff(m.pl, k.pList[..], q)
    modifies k`l, k`asl, k`sfree, k`owner, k`aslh, k`semdFree, k.sLink
    ensures Rep(k.Snap()) && k.l == Unlinked(m.l, p, m.sd[d].semAdd)
  {
    QueueOfMeans(m, d);
    ghost var a := m.sd[d].semAdd;
    if k.semds[d].procq == NULL {
      CloseSemd(k, d, m.asl, m.sfree);
      k.Means(Unlinked(m.l, p, a), Without(m.asl, d), m.sfree + [d], m.owner - {a});
      CloseRep(m, p, a, d, k.Snap());
    } else {
      k.l := Unlinked(m.l, p, a);
      LeaveRep(m, p, a, d, k.Snap());
    }
  }

  /** outBlocked: p leaves the queue it is blocked in; NULL, and nothing done,
      if it is in no queue and its p_cursem is only left over. */
  method OutBlocked(k: Kernel, p: int) returns (r: int)
    requires k.Core() && 0 <= p < k.n && 0 <= k.pcbs[p].cursem < k.n
    modifies k`l, k`asl, k`sfree, k`owner, k`aslh, k`semdFree, k.pList, k.semds, k.sLink
    ensures k.Core()
    ensures old(IsBlocked(k.l, p)) ==> r == p && k.l == Unlinked(old(k.l), p, old(k.l.status)[p].addr)
    ensures !old(IsBlocked(k.l, p)) ==> r == NULL && k.Snap() == old(k.Snap())
  {
    hide Rep;
    ghost var m := k.Snap();
    var s := k.pcbs[p].cursem;
    QueueOfMeans(m, s);
    if IsBlocked(m.l, p) {
      BlockedIsQueued(m, p);
    }
    r := TakeOut(k, p, s);
    if r != NULL {
      Leave(k, m, p, s, m.ps);
    }
  }

  /** removeBlocked: the head of the queue of semAdd, taken out, or NULL. */
  method RemoveBlocked(k: Kernel, semAdd: int) returns (p: int)
    requires k.Core()
    modifies k`l, k`asl, k`sfree, k`owner, k`aslh, k`semdFree, k.pList, k.pcbs, k.semds, k.sLink
    ensures k.Core()
    ensures p == if semAdd == 0 then NULL else Head(QueueAt(old(k.l.queue), semAdd))
    ensures if p == NULL then k.Snap() == old(k.Snap())
      else 0 <= p < k.n && k.pcbs[p].cursem == NULL && k.l == Unlinked(old(k.l), p, semAdd)
  {
    hide Rep, IsRing, SameOff, Distinct;
    ghost var m := k.Snap();
    if semAdd == 0 {
      return NULL;
    }
    AslParts(m);
    var scan := FindSemd(k.sLink, k.semds, k.aslh, semAdd, k.asl);
    FindMeans(m, semAdd, scan);
    if scan != NULL {
      QueueOfMeans(m, scan);
      p := TakeFirst(k, scan);
      Leave(k, m, p, scan, k.pcbs[..]);
    } else {
      p := NULL;
    }
  }

  /** The head of the queue of s is taken out, and forgets s (source/asl.c:111-113). */
  method TakeFirst(k: Kernel, s: int) returns (p: int)
    requires k.Core() && 0 <= s < k.n && s in k.asl
    modifies k.pList, k.pcbs, k.semds
    ensures p in QueueOf(old(k.Snap()), s) && p == QueueOf(old(k.Snap()), s)[0] && 0 <= p < k.n
    ensures k.pcbs[..] == Put(old(k.pcbs[..]), p, old(k.pcbs[..])[p].(cursem := NULL))
    ensures k.semds[..] == old(k.semds[..])[s := k.semds[s]] && k.semds[s].semAdd == old(k.semds[s].semAdd)
    ensures var q := Without(QueueOf(old(k.Snap()), s), p);
      IsRing(k.pList[..], k.semds[s].procq, q) && SameOff(old(k.pList[..]), k.pList[..], q)
  {
    hide Rep;
    ghost var m := k.Snap();
    QueueOfMeans(m, s);
    ActiveNotEmpty(m, s);
    ghost var q := QueueOf(m, s);
    p := HeadProcQ(k.pList, k.semds[s].procq, q);
    assert p in q;
    WithoutHead(q);
    k.pcbs[p] := k.pcbs[p].(cursem := NULL);
    var tail := Dequeue(k.pList, k.semds[s].procq, q);
    k.semds[s] := k.semds[s].(procq := tail);
  }

  lemma ActiveNotEmpty(m: Mem, d: int)
    requires Rep(m) && d in m.asl
    ensures QueueOf(m, d) != []
  {
  }
}
