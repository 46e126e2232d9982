/** The process tree (source/pcb.c:131-171) and the allocation of a PCB, which
    clears its links (source/pcb.c:16-67). */
module ProcessTree {
  import opened Clist
  import opened Forests
  import opened Lists
  import opened Processes
  import opened Model
  import opened Memory
  import opened PcbQueues

  /** t with the list of p replaced by q, and the parent of c by d. */
  function Relinked(t: Tree, p: int, q: seq<int>, c: int, d: int): Tree {
    t.(children := Put(t.children, p, q), parent := Put(t.parent, c, d))
  }

  /** Only the ring of p changed, and only links of its members. */
  lemma KidsFrame(t: Tree, ps: seq<Pcb>, ps': seq<Pcb>, sib: seq<int>, sib': seq<int>, p: int, c: int, q: seq<int>)
    requires Linked(t, |ps|) && KidsRep(ps, sib, t.children) && |ps'| == |ps| && |sib'| == |sib| && 0 <= p < |ps|
    requires SameOff(sib, sib', q) && IsRing(sib', ps'[p].kids, q)
    requires forall x :: x in q ==> x in t.children[p] || (x == c && 0 <= c < |ps| && t.parent[c] == NULL)
    requires forall x {:trigger ps'[x]} :: 0 <= x < |ps| && x != p ==> ps'[x].kids == ps[x].kids
    ensures KidsRep(ps', sib', t.children[p := q])
  {
    forall x | 0 <= x < |ps| && x != p
      ensures IsRing(sib', ps'[x].kids, t.children[x])
    {
      var r := t.children[x];
      forall i | 0 <= i < |r|
        ensures sib'[r[i]] == After(r, i)
      {
        assert r[i] in t.children[x] && sib[r[i]] == After(r, i);
        assert t.parent[r[i]] == x;
      }
    }
  }

  lemma TreeRep(m: Mem, p: int, q: seq<int>, c: int, d: int, m': Mem)
    requires Rep(m) && 0 <= p < |m.pl| && 0 <= c < |m.pl|
    requires (d == p && Orphan(m.t, c) && q == m.t.children[p] + [c]) || (d == NULL && m.t.parent[c] == p && q == Without(m.t.children[p], c))
    requires m' == m.(sib := m'.sib, ps := m'.ps, t := Relinked(m.t, p, q, c, d))
    requires SameOff(m.sib, m'.sib, q) && |m'.ps| == |m.ps|
    requires IsRing(m'.sib, m'.ps[p].kids, q)
    requires forall x {:trigger m'.ps[x]} :: 0 <= x < |m.ps| ==>
      m'.ps[x] == m.ps[x].(kids := if x == p then m'.ps[p].kids else m.ps[x].kids, parent := if x == c then d else m.ps[x].parent)
    ensures Rep(m')
  {
    WithoutDistinct(m.t.children[p], c);
    KidsFrame(m.t, m.ps, m'.ps, m.sib, m'.sib, p, c, q);
    LinkedKept(m.t, |m.pl|, p, q, c, d);
  }

  predicate Orphan(t: Tree, c: int) {
    0 <= c < |t.parent| && t.parent[c] == NULL
  }

  lemma LinkedKept(t: Tree, n: nat, p: int, q: seq<int>, c: int, d: int)
    requires Linked(t, n) && 0 <= p < n && 0 <= c < n
    requires (d == p && t.parent[c] == NULL && q == t.children[p] + [c]) || (d == NULL && t.parent[c] == p && q == Without(t.children[p], c))
    ensures Linked(Relinked(t, p, q, c, d), n)
  {
    WithoutDistinct(t.children[p], c);
    if d == p {
      assert c !in t.children[p];
      DistinctConcat(t.children[p], [c]);
    }
  }

  /** The child list of p in memory. */
  lemma KidsMean(m: Mem, p: int)
    requires Rep(m) && 0 <= p < |m.pl|
    ensures Sized(m) && |m.t.children| == |m.t.parent| == |m.pl|
    ensures IsRing(m.sib, m.ps[p].kids, m.t.children[p]) && m.ps[p].parent == m.t.parent[p]
    ensures var s := m.t.children[p];
      s != [] ==> 0 <= s[0] < |m.pl| && 0 <= m.ps[p].kids < |m.sib| && m.sib[m.ps[p].kids] == s[0] && m.t.parent[s[0]] == p
  {
    var s := m.t.children[p];
    if s != [] {
      assert m.sib[s[|s| - 1]] == After(s, |s| - 1) && s[0] in s;
    }
  }

  /** emptyChild */
  method EmptyChild(k: Kernel, p: int) returns (empty: bool)
    requires k.Core() && 0 <= p < k.n
    ensures empty <==> k.t.children[p] == []
  {
    hide Rep;
    KidsMean(k.Snap(), p);
    empty := k.pcbs[p].kids == NULL;
  }

  lemma NotListed(m: Mem, parent: int, p: int)
    requires Rep(m) && 0 <= parent < |m.pl| && 0 <= p < |m.pl| && |m.t.parent| == |m.t.children| == |m.pl| && m.t.parent[p] == NULL
    ensures p !in m.t.children[parent]
  {
  }

  /** insertChild */
  method InsertChild(k: Kernel, parent: int, p: int)
    requires k.Core() && 0 <= parent < k.n && 0 <= p < k.n && k.t.parent[p] == NULL
    modifies k`t, k.pSib, k.pcbs
    ensures k.Core()
    ensures k.t == Relinked(old(k.t), parent, old(k.t.children)[parent] + [p], p, parent)
    ensures forall x :: 0 <= x < k.n ==> k.pcbs[x].cursem == old(k.pcbs[x].cursem)
  {
    hide Rep;
    ghost var m := k.Snap();
    KidsMean(m, parent);
    NotListed(m, parent, p);
    ghost var s := m.t.children[parent];
    var tail := Enqueue(k.pSib, k.pcbs[parent].kids, p, s);
    k.pcbs[parent] := k.pcbs[parent].(kids := tail);
    k.pcbs[p] := k.pcbs[p].(parent := parent);
    k.t := Relinked(m.t, parent, s + [p], p, parent);
    TreeRep(m, parent, s + [p], p, parent, k.Snap());
  }

  /** The branch of removeChild for a parent that has children. */
  method UnlinkFirst(k: Kernel, p: int) returns (child: int)
    requires k.Core() && 0 <= p < k.n && k.t.children[p] != []
    modifies k`t, k.pSib, k.pcbs
    ensures k.Core()
    ensures child == old(k.t.children)[p][0] && 0 <= child < k.n
    ensures k.t == Relinked(old(k.t), p, old(k.t.children)[p][1..], child, NULL)
    ensures forall x :: 0 <= x < k.n ==> k.pcbs[x].cursem == old(k.pcbs[x].cursem)
  {
    hide Rep;
    ghost var m := k.Snap();
    KidsMean(m, p);
    ghost var s := m.t.children[p];
    child := k.pSib[k.pcbs[p].kids];
    k.pcbs[child] := k.pcbs[child].(parent := NULL);
    var tail := Dequeue(k.pSib, k.pcbs[p].kids, s);
    k.pcbs[p] := k.pcbs[p].(kids := tail);
    k.t := Relinked(m.t, p, s[1..], child, NULL);
    WithoutHead(s);
    TreeRep(m, p, s[1..], child, NULL, k.Snap());
  }

  /** removeChild: the first child, no longer one. */
  method RemoveChild(k: Kernel, p: int) returns (child: int)
    requires k.Core() && 0 <= p < k.n
    modifies k`t, k.pSib, k.pcbs
    ensures k.Core()
    ensures var s := old(k.t.children)[p];
      if s == [] then child == NULL && k.t == old(k.t)
      else child == s[0] && 0 <= child < k.n && k.t == Relinked(old(k.t), p, s[1..], child, NULL)
    ensures forall x :: 0 <= x < k.n ==> k.pcbs[x].cursem == old(k.pcbs[x].cursem)
  {
    var empty := EmptyChild(k, p);
    if empty {
      child := NULL;
    } else {
      child := UnlinkFirst(k, p);
    }
  }

  lemma ParentLists(m: Mem, p: int)
    requires Rep(m) && 0 <= p < |m.pl| && |m.t.parent| == |m.t.children| == |m.pl| && m.t.parent[p] != NULL
    ensures 0 <= m.t.parent[p] < |m.pl| && p in m.t.children[m.t.parent[p]]
  {
  }

  /** outChild: p leaves its parent, if it has one. */
  method OutChild(k: Kernel, p: int) returns (r: int)
    requires k.Core() && 0 <= p < k.n
    modifies k`t, k.pSib, k.pcbs
    ensures k.Core()
    ensures var d := old(k.t.parent)[p];
      if d == NULL then r == NULL && k.t == old(k.t)
      else r == p && 0 <= d < k.n && k.t == Relinked(old(k.t), d, Without(old(k.t.children)[d], p), p, NULL)
    ensures forall x :: 0 <= x < k.n ==> k.pcbs[x].cursem == old(k.pcbs[x].cursem)
  {
    hide Rep;
    ghost var m := k.Snap();
    KidsMean(m, p);
    if k.pcbs[p].parent == NULL {
      r := NULL;
    } else {
      var dad := k.pcbs[p].parent;
      ParentLists(m, p);
      KidsMean(m, dad);
      ghost var s := m.t.children[dad];
      k.pcbs[p] := k.pcbs[p].(parent := NULL);
      var tail, ret := Delete(k.pSib, k.pcbs[dad].kids, p, s);
      k.pcbs[dad] := k.pcbs[dad].(kids := tail);
      k.t := Relinked(m.t, dad, Without(s, p), p, NULL);
      TreeRep(m, dad, Without(s, p), p, NULL, k.Snap());
      r := p;
    }
  }

  // ----- allocation ---------------------------------------------------------------

  /** Free PCBs hang in no tree. */
  ghost predicate FreeDetached(l: Lists, t: Tree) {
    forall x {:trigger x in l.free} :: x in l.free && 0 <= x < |t.children| && x < |t.parent| ==> t.children[x] == [] && t.parent[x] == NULL
  }

  lemma AllocPlaced(l: Lists)
    requires QueuesPlaced(l) && l.free != []
    ensures QueuesPlaced(Allocated(l)) && 0 <= l.free[0] < |l.status| && l.free[0] !in Rest(l.free)
    ensures forall x :: x in Rest(l.free) ==> Is(l, x, Free)
  {
    assert l.free[0] in l.free;
    TailMembers(l.free);
  }

  /** The links of p, which is in no list, are cleared. */
  lemma AllocLinks(m: Mem, p: int, pl1: seq<int>, pl': seq<int>, free': int)
    requires Rep(m) && m.l.free != [] && p == m.l.free[0]
    requires IsRing(pl1, free', Rest(m.l.free)) && SameOff(m.pl, pl1, Rest(m.l.free)) && pl' == Put(pl1, p, NULL)
    ensures IsRing(pl', free', Rest(m.l.free))
    ensures QueueRep(pl', m.sd, m.asl, m.owner, m.l.queue)
    ensures StillLinked(pl', m.readyQueue, m.l.ready, Put(m.l.status, p, Off))
  {
    AllocPlaced(m.l);
    assert p in m.l.free;
    var r := Rest(m.l.free);
    forall x | 0 <= x < |m.pl| && m.l.status[x] != Free
      ensures pl'[x] == m.pl[x]
    {
      assert x !in r && x != p;
    }
    QueueRepFrame(m.pl, pl', m.sd, m.asl, m.owner, m.l);
    forall i | 0 <= i < |r|
      ensures pl'[r[i]] == After(r, i)
    {
      assert r[i] in r && pl1[r[i]] == After(r, i);
    }
  }

  lemma AllocKids(ps: seq<Pcb>, ps': seq<Pcb>, sib: seq<int>, sib': seq<int>, t: Tree, p: int)
    requires KidsRep(ps, sib, t.children) && Linked(t, |ps|) && 0 <= p < |ps| == |sib|
    requires t.children[p] == [] && t.parent[p] == NULL && sib' == sib[p := NULL] && |ps'| == |ps|
    requires forall x {:trigger ps'[x]} :: 0 <= x < |ps| ==> ps'[x].kids == if x == p then NULL else ps[x].kids
    ensures KidsRep(ps', sib', t.children)
  {
    forall x | 0 <= x < |ps|
      ensures IsRing(sib', ps'[x].kids, t.children[x])
    {
      var r := t.children[x];
      forall i | 0 <= i < |r|
        ensures sib'[r[i]] == After(r, i)
      {
        assert r[i] in t.children[x] && sib[r[i]] == After(r, i);
      }
    }
  }

  lemma AllocFields(m: Mem, p: int, base: int)
    requires FieldsRep(m.ps, m.l.need, m.t, m.kt, m.gt) && CursemRep(m.ps, m.owner, m.l.status) && 0 <= p < |m.ps| && m.t.parent[p] == NULL
    ensures var ps := Put(m.ps, p, Pcb(NULL, NULL, NULL, base, 0, 0, 0));
      && FieldsRep(ps, Put(m.l.need, p, 0), m.t.(pid := Put(m.t.pid, p, base)), Put(m.kt, p, 0), Put(m.gt, p, 0))
      && CursemRep(ps, m.owner, Put(m.l.status, p, Off))
  {
  }

  /** The PCB taken off the free list, cleared. */
  ghost predicate AllocStep(m: Mem, base: int, pl1: seq<int>, m': Mem) {
    var p := Head(m.l.free);
    && IsRing(pl1, m'.pcbFree, Rest(m.l.free)) && SameOff(m.pl, pl1, Rest(m.l.free))
    && m' == m.(pl := Put(pl1, p, NULL), sib := Put(m.sib, p, NULL), ps := Put(m.ps, p, Pcb(NULL, NULL, NULL, base, 0, 0, 0)),
                pcbFree := m'.pcbFree, l := Allocated(m.l), t := m.t.(pid := Put(m.t.pid, p, base)),
                kt := Put(m.kt, p, 0), gt := Put(m.gt, p, 0))
  }

  lemma AllocRep(m: Mem, base: int, pl1: seq<int>, m': Mem)
    requires Rep(m) && m.l.free != [] && FreeDetached(m.l, m.t) && AllocStep(m, base, pl1, m')
    ensures Rep(m')
  {
    var p := m.l.free[0];
    assert p in m.l.free;
    AllocPlaced(m.l);
    AllocLinks(m, p, pl1, m'.pl, m'.pcbFree);
    AllocKids(m.ps, m'.ps, m.sib, m'.sib, m.t, p);
    AllocFields(m, p, base);
  }

  lemma AllocStart(m: Mem)
    requires Rep(m)
    ensures Sized(m) && IsRing(m.pl, m.pcbFree, m.l.free) && |m.t.pid| == |m.kt| == |m.gt| == |m.pl|
    ensures m.l.free != [] ==> 0 <= m.l.free[0] < |m.pl| && m.pl[m.pcbFree] == m.l.free[0]
  {
    if m.l.free != [] {
      assert m.pl[m.l.free[|m.l.free| - 1]] == After(m.l.free, |m.l.free| - 1);
    }
  }

  /** The fields of a PCB are initialised (source/pcb.c:28-66). */
  method Clear(k: Kernel, p: int, base: int)
    requires k.Apart() && 0 <= p < k.n
    modifies k.pList, k.pSib, k.pcbs
    ensures k.pList[..] == Put(old(k.pList[..]), p, NULL) && k.pSib[..] == Put(old(k.pSib[..]), p, NULL)
    ensures k.pcbs[..] == Put(old(k.pcbs[..]), p, Pcb(NULL, NULL, NULL, base, 0, 0, 0))
  {
    k.pList[p] := NULL;
    k.pSib[p] := NULL;
    k.pcbs[p] := Pcb(NULL, NULL, NULL, base, 0, 0, 0);
  }

  /** The head of pcbFree is taken off and cleared. */
  method TakeFree(k: Kernel, base: int) returns (p: int, ghost pl1: seq<int>)
    requires k.Core() && k.l.free != []
    modifies k`pcbFree, k.pList, k.pSib, k.pcbs
    ensures p == k.l.free[0] && 0 <= p < k.n
    ensures IsRing(pl1, k.pcbFree, Rest(k.l.free)) && SameOff(old(k.pList[..]), pl1, Rest(k.l.free))
    ensures k.pList[..] == Put(pl1, p, NULL) && k.pSib[..] == Put(old(k.pSib[..]), p, NULL)
    ensures k.pcbs[..] == Put(old(k.pcbs[..]), p, Pcb(NULL, NULL, NULL, base, 0, 0, 0))
  {
    hide Rep;
    AllocStart(k.Snap());
    p := k.pList[k.pcbFree];
    k.pcbFree := Dequeue(k.pList, k.pcbFree, k.l.free);
    pl1 := k.pList[..];
    Clear(k, p, base);
  }

  ghost method Named(k: Kernel, l: Lists, t: Tree, kt: seq<int>, gt: seq<int>)
    modifies k`l, k`t, k`kt, k`gt
    ensures k.l == l && k.t == t && k.kt == kt && k.gt == gt
  {
    k.l, k.t, k.kt, k.gt := l, t, kt, gt;
  }

  /** The branch of allocPcb for a list that is not empty. */
  method AllocHead(k: Kernel, base: int) returns (p: int)
    requires k.Core() && FreeDetached(k.l, k.t) && k.l.free != []
    modifies k`pcbFree, k`l, k`t, k`kt, k`gt, k.pList, k.pSib, k.pcbs
    ensures k.Core() && p == old(k.l.free)[0] && k.l == Allocated(old(k.l))
    ensures k.t == old(k.t).(pid := Put(old(k.t.pid), p, base))
    ensures k.kt == Put(old(k.kt), p, 0) && k.gt == Put(old(k.gt), p, 0)
    ensures 0 <= p < k.n && k.pcbs[..] == Put(old(k.pcbs[..]), p, Pcb(NULL, NULL, NULL, base, 0, 0, 0))
  {
    hide Rep, FreeDetached;
    ghost var m, pl1 := k.Snap(), [];
    p, pl1 := TakeFree(k, base);
    Named(k, Allocated(m.l), m.t.(pid := Put(m.t.pid, p, base)), Put(m.kt, p, 0), Put(m.gt, p, 0));
    AllocRep(m, base, pl1, k.Snap());
  }

  /** allocPcb: NULL if no PCB is free; `base` is the value left in pid. */
  method AllocPcb(k: Kernel, base: int) returns (p: int)
    requires k.Core() && FreeDetached(k.l, k.t)
    modifies k`pcbFree, k`l, k`t, k`kt, k`gt, k.pList, k.pSib, k.pcbs
    ensures k.Core() && p == Head(old(k.l.free))
    ensures p == NULL ==> k.l == old(k.l) && k.t == old(k.t) && k.kt == old(k.kt) && k.gt == old(k.gt) && k.pcbs[..] == old(k.pcbs[..])
    ensures p != NULL ==> k.l == Allocated(old(k.l)) && k.t == old(k.t).(pid := Put(old(k.t.pid), p, base))
    ensures p != NULL ==> k.kt == Put(old(k.kt), p, 0) && k.gt == Put(old(k.gt), p, 0)
    ensures p != NULL ==> 0 <= p < k.n && k.pcbs[..] == Put(old(k.pcbs[..]), p, Pcb(NULL, NULL, NULL, base, 0, 0, 0))
  {
    hide Rep, FreeDetached, Allocated;
    AllocStart(k.Snap());
    if k.pcbFree == NULL {
      p := NULL;
    } else {
      p := AllocHead(k, base);
    }
  }
}
