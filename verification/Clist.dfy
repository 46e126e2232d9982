/** Circular lists with a tail pointer (include/clist.h).

    A `struct clist` member embedded in the records of a static table is an
    array of links `next`; a pointer to a record is its index; the list entry
    point, which addresses the tail, is the index of the tail, or NULL.  Each
    macro is a method that edits `next` in place and returns the new tail.
 */
module Clist {
  const NULL: int := -1

  /** Where e stands in q. */
  ghost function IndexOf(q: seq<int>, e: int): (k: nat)
    requires e in q
    ensures k < |q| && q[k] == e
  {
    var k :| 0 <= k < |q| && q[k] == e;
    k
  }

  /** No member of q repeats: a member has one position only.  This is the
      pairwise form, see DistinctIsPairwise, with one bound variable. */
  ghost predicate Distinct(q: seq<int>) {
    forall i {:trigger q[i]} :: 0 <= i < |q| ==> IndexOf(q, q[i]) == i
  }

  lemma DistinctIsPairwise(q: seq<int>)
    ensures Distinct(q) <==> forall i, j :: 0 <= i < j < |q| ==> q[i] != q[j]
  {
    if Distinct(q) {
      forall i, j | 0 <= i < j < |q|
        ensures q[i] != q[j]
      {
        assert IndexOf(q, q[i]) == i && IndexOf(q, q[j]) == j;
      }
    }
  }

  function Head(q: seq<int>): int {
    if q == [] then NULL else q[0]
  }

  function Rest(q: seq<int>): seq<int> {
    if q == [] then [] else q[1..]
  }

  /** The successor of q[i] when q is read round. */
  function After(q: seq<int>, i: nat): int
    requires i < |q|
  {
    if i + 1 < |q| then q[i + 1] else q[0]
  }

  /** The links starting behind `tail` run through exactly q, head first. */
  ghost predicate IsRing(next: seq<int>, tail: int, q: seq<int>) {
    && (forall i :: 0 <= i < |q| ==> 0 <= q[i] < |next|)
    && Distinct(q)
    && tail == (if q == [] then NULL else q[|q| - 1])
    && (forall i {:trigger After(q, i)} :: 0 <= i < |q| ==> next[q[i]] == After(q, i))
  }

  /** Two link tables agree outside the listed records. */
  ghost predicate SameOff(a: seq<int>, b: seq<int>, touched: seq<int>) {
    |a| == |b| && forall x :: 0 <= x < |a| && x !in touched ==> a[x] == b[x]
  }

  /** r is q with position k left out. */
  ghost predicate IsCut(q: seq<int>, k: nat, r: seq<int>)
    requires k < |q|
  {
    |r| == |q| - 1 && forall i {:trigger r[i]} :: 0 <= i < |r| ==> r[i] == q[if i < k then i else i + 1]
  }

  /** r is q with e put in at position k. */
  ghost predicate IsInsertion(q: seq<int>, k: nat, e: int, r: seq<int>)
    requires k <= |q|
  {
    |r| == |q| + 1
    && forall i {:trigger r[i]} :: 0 <= i < |r| ==> r[i] == if i == k then e else q[if i < k then i else i - 1]
  }

  /** q without e. */
  ghost function Without(q: seq<int>, e: int): (r: seq<int>)
    ensures if e in q then IsCut(q, IndexOf(q, e), r) else r == q
  {
    if e in q then
      var k := IndexOf(q, e);
      assert IsCut(q, k, q[..k] + q[k + 1..]);
      var r :| IsCut(q, k, r);
      r
    else q
  }

  lemma WithoutHead(q: seq<int>)
    requires Distinct(q) && q != []
    ensures Without(q, q[0]) == q[1..]
  {
    assert IsCut(q, 0, Without(q, q[0]));
  }

  lemma DistinctTail(q: seq<int>)
    requires Distinct(q) && q != []
    ensures Distinct(q[1..]) && q[0] !in q[1..]
  {
    var r := q[1..];
    forall i | 0 <= i < |r|
      ensures IndexOf(r, r[i]) == i
    {
      assert q[IndexOf(r, r[i]) + 1] == r[i] == q[i + 1];
    }
    forall i | 0 <= i < |r|
      ensures r[i] != q[0]
    {
      assert IndexOf(q, q[i + 1]) == i + 1 && IndexOf(q, q[0]) == 0;
    }
  }

  /** The members of the two parts of q differ. */
  lemma PartsDiffer(q: seq<int>, k: nat)
    requires Distinct(q) && k <= |q|
    ensures forall p :: p in q[k..] ==> p !in q[..k]
  {
    forall p | p in q[k..]
      ensures p !in q[..k]
    {
      var j := IndexOf(q[k..], p);
      assert q[k + j] == p;
      forall i | 0 <= i < k
        ensures q[..k][i] != p
      {
        assert IndexOf(q, q[i]) == i && IndexOf(q, q[k + j]) == k + j;
      }
    }
  }

  ghost function Members(q: seq<int>): set<int> {
    set p | p in q
  }

  lemma CutUnique(q: seq<int>, k: nat, r: seq<int>, s: seq<int>)
    requires k < |q| && IsCut(q, k, r) && IsCut(q, k, s)
    ensures r == s
  {
    assert forall i :: 0 <= i < |r| ==> r[i] == s[i];
  }

  lemma WithoutTail(q: seq<int>, e: int)
    requires Distinct(q) && q != []
    ensures Without(q, e) == if q[0] == e then q[1..] else [q[0]] + Without(q[1..], e)
  {
    DistinctTail(q);
    if q[0] == e {
      WithoutHead(q);
    } else if e in q {
      var r, k := q[1..], IndexOf(q, e);
      assert r[k - 1] == e && IndexOf(r, e) == k - 1;
      CutTail(q, k, Without(r, e));
      CutUnique(q, k, Without(q, e), [q[0]] + Without(r, e));
    }
  }

  lemma CutTail(q: seq<int>, k: nat, u: seq<int>)
    requires 0 < k < |q| && IsCut(q[1..], k - 1, u)
    ensures IsCut(q, k, [q[0]] + u)
  {
    var r := [q[0]] + u;
    forall i | 0 <= i < |r|
      ensures r[i] == q[if i < k then i else i + 1]
    {
      if i > 0 {
        assert r[i] == u[i - 1];
      }
    }
  }

  lemma WithoutDistinct(q: seq<int>, e: int)
    requires Distinct(q)
    ensures Distinct(Without(q, e))
    ensures forall x :: x in Without(q, e) <==> x in q && x != e
    ensures |Without(q, e)| == if e in q then |q| - 1 else |q|
  {
    var r := Without(q, e);
    forall x | x in q && x != e
      ensures x in r
    {
      if e in q {
        var i := IndexOf(q, x);
        assert x == r[if i < IndexOf(q, e) then i else i - 1];
      }
    }
  }

  lemma DistinctConcat(q: seq<int>, r: seq<int>)
    requires Distinct(q) && Distinct(r) && forall x :: x in q ==> x !in r
    ensures Distinct(q + r)
  {
    var s := q + r;
    forall i | 0 <= i < |s|
      ensures IndexOf(s, s[i]) == i
    {
      var k := IndexOf(s, s[i]);
      assert s[k] == if k < |q| then q[k] else r[k - |q|];
      assert s[i] == if i < |q| then q[i] else r[i - |q|];
    }
  }

  /** A well-formed ring determines its sequence: reading it is unambiguous. */
  lemma {:induction false} RingUnique(next: seq<int>, tail: int, q: seq<int>, r: seq<int>)
    requires IsRing(next, tail, q) && IsRing(next, tail, r)
    ensures q == r
    decreases |q|
  {
    if |q| > |r| {
      RingUnique(next, tail, r, q);
    } else {
      for i := 0 to |q|
        invariant forall j :: 0 <= j < i ==> q[j] == r[j]
      {
        if i == 0 {
          assert next[q[|q| - 1]] == After(q, |q| - 1) && next[r[|r| - 1]] == After(r, |r| - 1);
        } else {
          assert next[q[i - 1]] == After(q, i - 1) && next[r[i - 1]] == After(r, i - 1);
        }
      }
      assert q != [] ==> q[|q| - 1] == r[|q| - 1];
    }
  }

  /** Writing elem between q[k - 1] and q[k], read round, makes it member k. */
  lemma {:induction false} InsertRing(a: seq<int>, b: seq<int>, tail: int, elem: int, q: seq<int>, k: nat, r: seq<int>)
    requires IsRing(a, tail, q) && k < |q| && 0 <= elem < |a| && elem !in q
    requires b == a[elem := q[k]][(if k == 0 then tail else q[k - 1]) := elem]
    requires IsInsertion(q, k, elem, r)
    ensures IsRing(b, tail, r)
    ensures SameOff(a, b, q + [elem])
  {
    forall i | 0 <= i < |r|
      ensures b[r[i]] == After(r, i)
    {
      if i < k {
        assert a[q[i]] == After(q, i);
      } else if i > k {
        assert a[q[i - 1]] == After(q, i - 1);
      }
    }
  }

  /** Linking q[k - 1] past q[k], read round, drops member k. */
  lemma {:induction false} UnlinkRing(a: seq<int>, b: seq<int>, tail: int, q: seq<int>, k: nat)
    requires IsRing(a, tail, q) && k < |q| && 1 < |q|
    requires b == a[(if k == 0 then tail else q[k - 1]) := After(q, k)]
    ensures IsRing(b, if tail == q[k] then q[k - 1] else tail, Without(q, q[k]))
    ensures SameOff(a, b, Without(q, q[k]))
  {
    var r := Without(q, q[k]);
    assert IsCut(q, k, r);
    WithoutDistinct(q, q[k]);
    forall i | 0 <= i < |r|
      ensures b[r[i]] == After(r, i)
    {
      var j := if i < k then i else i + 1;
      assert a[q[j]] == After(q, j);
    }
    var x := if k == 0 then tail else q[k - 1];
    assert x == r[if k == 0 then |r| - 1 else k - 1];
  }

  /** A ring none of whose members is touched stays one. */
  lemma RingKept(a: seq<int>, b: seq<int>, tail: int, q: seq<int>, touched: seq<int>)
    requires IsRing(a, tail, q) && SameOff(a, b, touched) && forall x :: x in q ==> x !in touched
    ensures IsRing(b, tail, q)
  {
    forall i | 0 <= i < |q|
      ensures b[q[i]] == After(q, i)
    {
      assert q[i] in q && a[q[i]] == After(q, i);
    }
  }

  // ----- the macros ------------------------------------------------------

  /** clist_enqueue: add elem as the last element. */
  method Enqueue(next: array<int>, tail: int, elem: int, ghost q: seq<int>) returns (tail': int)
    requires IsRing(next[..], tail, q) && 0 <= elem < next.Length && elem !in q
    modifies next
    ensures IsRing(next[..], tail', q + [elem])
    ensures SameOff(old(next[..]), next[..], q + [elem])
  {
    if tail == NULL {
      tail' := elem;
      next[elem] := elem;
    } else {
      assert next[..][q[|q| - 1]] == After(q, |q| - 1);
      next[elem] := next[tail];
      next[tail] := elem;
      tail' := elem;
      assert forall i :: 0 <= i < |q| - 1 ==> old(next[..])[q[i]] == After(q, i);
    }
  }

  /** clist_push: add elem as the first element. */
  method Push(next: array<int>, tail: int, elem: int, ghost q: seq<int>) returns (tail': int)
    requires IsRing(next[..], tail, q) && 0 <= elem < next.Length && elem !in q
    modifies next
    ensures IsRing(next[..], tail', [elem] + q)
    ensures SameOff(old(next[..]), next[..], [elem] + q)
  {
    tail' := tail;
    if tail == NULL {
      tail' := elem;
      next[elem] := elem;
    } else {
      assert next[..][q[|q| - 1]] == After(q, |q| - 1);
      next[elem] := next[tail];
      next[tail] := elem;
      InsertRing(old(next[..]), next[..], tail, elem, q, 0, [elem] + q);
    }
  }

  /** clist_dequeue: remove the first element of a non-empty list. */
  method Dequeue(next: array<int>, tail: int, ghost q: seq<int>) returns (tail': int)
    requires IsRing(next[..], tail, q) && q != []
    modifies next
    ensures IsRing(next[..], tail', q[1..])
    ensures SameOff(old(next[..]), next[..], q[1..])
  {
    assert next[..][q[|q| - 1]] == After(q, |q| - 1) && next[..][q[0]] == After(q, 0);
    tail' := tail;
    if tail == next[tail] {
      tail' := NULL;
    } else {
      next[tail] := next[next[tail]];
      UnlinkRing(old(next[..]), next[..], tail, q, 0);
      WithoutHead(q);
    }
  }

  /** clist_foreach_delete: unlink the element the scan stands on.  `tmp` is
      the element visited before it, NULL on the first round. */
  method ForeachDelete(next: array<int>, tail: int, scan: int, tmp: int, ghost q: seq<int>, ghost k: nat)
    returns (tail': int)
    requires IsRing(next[..], tail, q) && k < |q| && scan == q[k]
    requires tmp == if k == 0 then NULL else q[k - 1]
    modifies next
    ensures IsRing(next[..], tail', Without(q, scan))
    ensures SameOff(old(next[..]), next[..], Without(q, scan))
  {
    assert next[..][q[|q| - 1]] == After(q, |q| - 1) && next[..][q[k]] == After(q, k);
    tail' := tail;
    if next[tail] == scan {
      WithoutHead(q);
      tail' := Dequeue(next, tail, q);
    } else {
      if tail == scan {
        tail' := tmp;
      }
      next[tmp] := next[scan];
      UnlinkRing(old(next[..]), next[..], tail, q, k);
    }
  }

  /** The branch of clist_delete taken when the successor of scan is elem. */
  method UnlinkNext(next: array<int>, tail: int, scan: int, elem: int, ghost q: seq<int>, ghost i: nat)
    returns (tail': int)
    requires IsRing(next[..], tail, q) && i + 1 < |q| && scan == q[i] && elem == q[i + 1]
    modifies next
    ensures IsRing(next[..], tail', Without(q, elem)) && elem !in Without(q, elem)
    ensures i < |Without(q, elem)| == |q| - 1 && Without(q, elem)[i] == scan && Without(q, elem)[0] == q[0]
    ensures SameOff(old(next[..]), next[..], Without(q, elem))
  {
    assert next[..][q[i + 1]] == After(q, i + 1);
    WithoutDistinct(q, elem);
    tail' := tail;
    if tail == elem {
      tail' := scan;
    }
    next[scan] := next[elem];
    UnlinkRing(old(next[..]), next[..], tail, q, i + 1);
  }

  /** One step of a scan that stands on q[i]. */
  lemma RingStep(next: seq<int>, tail: int, q: seq<int>, i: nat)
    requires IsRing(next, tail, q) && i < |q|
    ensures 0 <= tail < |next| && next[tail] == q[0] && 0 <= q[i] < |next| && next[q[i]] == After(q, i)
    ensures q[0] != NULL && (i + 1 < |q| ==> q[i + 1] != q[0])
  {
    RingEnds(next, tail, q);
    assert IndexOf(q, q[0]) == 0 && (i + 1 < |q| ==> IndexOf(q, q[i + 1]) == i + 1);
  }

  /** The scan of clist_delete, for an elem that is not the head. */
  method DeleteScan(next: array<int>, tail: int, elem: int, ghost q: seq<int>)
    returns (tail': int, retval: int)
    requires IsRing(next[..], tail, q) && 0 <= elem < next.Length && q != [] && q[0] != elem
    modifies next
    ensures IsRing(next[..], tail', Without(q, elem))
    ensures SameOff(old(next[..]), next[..], Without(q, elem))
    ensures retval == if elem in q then 0 else 1
  {
    hide IsRing, Without, Distinct;
    retval := 1;
    tail' := tail;
    RingStep(next[..], tail, q, 0);
    var scan, tmp := next[tail], NULL;
    ghost var i, r, k := 0, q, if elem in q then IndexOf(q, elem) else |q| + 1;
    while scan != tmp
      invariant 0 <= i <= |r| && 0 < |r| && IsRing(next[..], tail', r)
      invariant scan == (if i < |r| then r[i] else r[0]) && tmp == (if i == 0 then NULL else r[0])
      invariant scan == tmp <==> i == |r|
      invariant i < k ==> retval == 1 && r == q && tail' == tail && next[..] == old(next[..])
      invariant i >= k ==> retval == 0 && r == Without(q, elem) && elem !in r && SameOff(old(next[..]), next[..], r)
      decreases |r| - i
    {
      tail', retval, r := DeleteHere(next, tail', scan, elem, r, i, retval);
      RingStep(next[..], tail', r, i);
      scan := next[scan];
      tmp := next[tail'];
      i := i + 1;
    }
  }

  /** The body of the scan: the successor of scan is unlinked if it is elem. */
  method DeleteHere(next: array<int>, tail: int, scan: int, elem: int, ghost q: seq<int>, ghost i: nat, retval: int)
    returns (tail': int, retval': int, ghost r: seq<int>)
    requires IsRing(next[..], tail, q) && i < |q| && scan == q[i] && q[0] != elem
    modifies next
    ensures IsRing(next[..], tail', r) && i < |r| && r[i] == scan && r[0] == q[0]
    ensures if i + 1 < |q| && q[i + 1] == elem
      then r == Without(q, elem) && elem !in r && |r| == |q| - 1 && retval' == 0 && SameOff(old(next[..]), next[..], r)
      else r == q && retval' == retval && tail' == tail && next[..] == old(next[..])
  {
    tail', retval', r := tail, retval, q;
    assert next[..][q[i]] == After(q, i);
    if next[scan] == elem {
      tail' := UnlinkNext(next, tail, scan, elem, q, i);
      r := Without(q, elem);
      retval' := 0;
    }
  }

  lemma RingEnds(next: seq<int>, tail: int, q: seq<int>)
    requires IsRing(next, tail, q) && q != []
    ensures next[tail] == q[0]
  {
    assert next[q[|q| - 1]] == After(q, |q| - 1);
  }

  /** clist_delete: scan for elem without stopping at it; 0 iff it was there. */
  method Delete(next: array<int>, tail: int, elem: int, ghost q: seq<int>)
    returns (tail': int, retval: int)
    requires IsRing(next[..], tail, q) && 0 <= elem < next.Length
    modifies next
    ensures IsRing(next[..], tail', Without(q, elem))
    ensures SameOff(old(next[..]), next[..], Without(q, elem))
    ensures retval == if elem in q then 0 else 1
  {
    retval := 1;
    tail' := tail;
    if tail != NULL {
      assert next[..][q[|q| - 1]] == After(q, |q| - 1);
      if next[tail] == elem {
        WithoutHead(q);
        tail' := Dequeue(next, tail, q);
        retval := 0;
      } else {
        tail', retval := DeleteScan(next, tail, elem, q);
      }
    }
  }

  /** clist_foreach_add: insert elem before the element the scan stands on. */
  method ForeachAdd(next: array<int>, tail: int, elem: int, scan: int, tmp: int, ghost q: seq<int>, ghost k: nat)
    returns (tail': int)
    requires IsRing(next[..], tail, q) && k < |q| && scan == q[k]
    requires 0 <= elem < next.Length && elem !in q
    requires tmp == if k == 0 then NULL else q[k - 1]
    modifies next
    ensures IsRing(next[..], tail', q[..k] + [elem] + q[k..])
    ensures SameOff(old(next[..]), next[..], q + [elem])
  {
    tail' := tail;
    if tmp != NULL {
      next[elem] := scan;
      next[tmp] := elem;
      InsertRing(old(next[..]), next[..], tail, elem, q, k, q[..k] + [elem] + q[k..]);
    } else {
      tail' := Push(next, tail, elem, q);
      assert q[..0] + [elem] + q[0..] == [elem] + q;
    }
  }
}
