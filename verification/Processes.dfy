/** The process tree and the death of a subtree. */
module Processes {
  import opened Clist
  import opened Forests
  import opened Lists
  import opened Semaphores

  /** p_children (the list of it), p_parent and pid of every PCB, and the
      forest the child lists spell. */
  datatype Tree = Tree(children: seq<seq<int>>, parent: seq<int>, pid: seq<int>, forest: Forest)

  /** p_parent and the child lists agree both ways. */
  ghost predicate Linked(t: Tree, n: nat) {
    && |t.children| == |t.parent| == |t.pid| == n
    && (forall p, c {:trigger c in t.children[p]} :: 0 <= p < n && c in t.children[p] ==> 0 <= c < n && t.parent[c] == p)
    && (forall c {:trigger t.parent[c]} :: 0 <= c < n && t.parent[c] != NULL ==>
         0 <= t.parent[c] < n && c in t.children[t.parent[c]])
    && (forall p {:trigger t.children[p]} :: 0 <= p < n ==> Distinct(t.children[p]))
  }

  /** The live processes form one tree, grown from process `first`. */
  ghost predicate TreeInv(t: Tree, n: nat, live: set<int>, first: int) {
    && Linked(t, n)
    && Spells(t.children, t.forest) && Simple(t.forest) && Nodes(t.forest) == live
    && (forall p {:trigger t.children[p]} {:trigger t.parent[p]} :: 0 <= p < n && p !in live ==> t.children[p] == [] && t.parent[p] == NULL)
    && (t.forest.Cons? ==> t.forest.id == first && t.forest.rest == Nil && 0 <= first < n && t.parent[first] == NULL)
  }

  /** insertChild of a new process c. */
  function WithChild(t: Tree, p: int, c: int, pid: int): Tree {
    if 0 <= p < |t.children| then
      t.(children := t.children[p := t.children[p] + [c]], parent := Put(t.parent, c, p), pid := Put(t.pid, c, pid),
         forest := Graft(t.forest, p, c))
    else t
  }

  /** The processes s are cut loose, from each other and from p, which keeps
      the children r. */
  function Stripped(t: Tree, p: int, r: seq<int>, s: set<int>): Tree {
    t.(children := seq(|t.children|, i requires 0 <= i < |t.children| => if i == p then r else if i in s then [] else t.children[i]),
       parent := seq(|t.parent|, i requires 0 <= i < |t.parent| => if i in s then NULL else t.parent[i]))
  }

  /** v and its descendants leave the tree; nobody else notices but the list
      v was in. */
  ghost function Felled(t: Tree, v: int): Tree {
    var s := Subtree(t.forest, v);
    t.(children := seq(|t.children|, i requires 0 <= i < |t.children| => if i in s then [] else Without(t.children[i], v)),
       parent := seq(|t.parent|, i requires 0 <= i < |t.parent| => if i in s then NULL else t.parent[i]),
       forest := Prune(t.forest, v))
  }

  lemma WithChildLinked(t: Tree, n: nat, p: int, c: int, pid: int)
    requires Linked(t, n) && 0 <= p < n && 0 <= c < n && t.parent[c] == NULL
    ensures Linked(WithChild(t, p, c, pid), n)
  {
    DistinctConcat(t.children[p], [c]);
  }

  lemma {:induction false} WithChildKeeps(t: Tree, n: nat, live: set<int>, first: int, p: int, c: int, pid: int)
    requires TreeInv(t, n, live, first) && p in live && c !in live && 0 <= c < n
    ensures TreeInv(WithChild(t, p, c, pid), n, live + {c}, first)
  {
    hide Linked;
    var u := WithChild(t, p, c, pid);
    LinkedSized(t, n);
    SpellsRange(t.children, t.forest, p);
    GraftFacts(t.children, u.children, t.forest, p, c);
    WithChildLinked(t, n, p, c, pid);
  }

  lemma LinkedSized(t: Tree, n: nat)
    requires Linked(t, n)
    ensures |t.children| == |t.parent| == |t.pid| == n
  {
  }

  lemma {:induction false} FelledKeeps(t: Tree, n: nat, live: set<int>, first: int, v: int)
    requires TreeInv(t, n, live, first) && v in live
    ensures TreeInv(Felled(t, v), n, live - Subtree(t.forest, v), first)
  {
    var u, s := Felled(t, v), Subtree(t.forest, v);
    PruneNodes(t.children, t.forest, v);
    PruneSpells(t.children, u.children, t.forest, v);
    FelledLinked(t, n, live, first, v);
    if v != first {
      BelowSides(t.children, t.forest, v);
    }
  }

  lemma {:induction false} FelledLinked(t: Tree, n: nat, live: set<int>, first: int, v: int)
    requires TreeInv(t, n, live, first) && v in live
    ensures Linked(Felled(t, v), n)
  {
    var u, s := Felled(t, v), Subtree(t.forest, v);
    BelowFacts(t.children, t.forest, v);
    forall p | 0 <= p < n
      ensures Distinct(u.children[p]) && forall c :: c in u.children[p] ==> 0 <= c < n && u.parent[c] == p
    {
      WithoutDistinct(t.children[p], v);
      forall c | c in u.children[p]
        ensures 0 <= c < n && u.parent[c] == p
      {
        assert c in t.children[p];
        if c in Nodes(Below(t.forest, v)) {
          ListedInside(t, n, v, p, c);
        }
      }
    }
    forall c | 0 <= c < n && u.parent[c] != NULL
      ensures 0 <= u.parent[c] < n && c in u.children[u.parent[c]]
    {
      var p := t.parent[c];
      assert c in t.children[p];
      WithoutDistinct(t.children[p], v);
      if p in s {
        SubtreeClosed(t, v, p, c);
      }
    }
  }

  /** The children of a member of the subtree are members. */
  lemma {:induction false} SubtreeClosed(t: Tree, v: int, p: int, c: int)
    requires Spells(t.children, t.forest) && Simple(t.forest) && v in Nodes(t.forest)
    requires p in Subtree(t.forest, v) && 0 <= p < |t.children| && c in t.children[p]
    ensures c in Nodes(Below(t.forest, v))
  {
    BelowFacts(t.children, t.forest, v);
    if p == v {
      RootsNodes(Below(t.forest, v));
    } else {
      SpellsRange(t.children, Below(t.forest, v), p);
    }
  }

  /** Whoever lists a proper descendant of v is in the subtree. */
  lemma {:induction false} ListedInside(t: Tree, n: nat, v: int, p: int, c: int)
    requires Linked(t, n) && Spells(t.children, t.forest) && Simple(t.forest) && v in Nodes(t.forest)
    requires 0 <= p < n && c in Nodes(Below(t.forest, v)) && c in t.children[p]
    ensures p in Subtree(t.forest, v)
  {
    BelowFacts(t.children, t.forest, v);
    var g := Below(t.forest, v);
    ParentInside(t.children, g, c);
    assert c in Roots(g) ==> c in t.children[v];
  }

  /** A node of f is a root of f or is listed by another node of f. */
  lemma {:induction false} ParentInside(ch: seq<seq<int>>, f: Forest, c: int)
    requires Spells(ch, f) && c in Nodes(f)
    ensures c in Roots(f) || exists q :: q in Nodes(f) && 0 <= q < |ch| && c in ch[q]
  {
    if c != f.id {
      if c in Nodes(f.kids) {
        ParentInside(ch, f.kids, c);
      } else {
        ParentInside(ch, f.rest, c);
      }
    }
  }

  // ----- descent --------------------------------------------------------------

  /** The k-th ancestor of x, following p_parent. */
  function Up(parent: seq<int>, x: int, k: nat): int
    decreases k
  {
    if k == 0 then x else if 0 <= x < |parent| then Up(parent, parent[x], k - 1) else NULL
  }

  /** The subtree of v is exactly the live processes whose chain of p_parent
      leads to v. */
  lemma {:induction false} SubtreeIsDescent(t: Tree, n: nat, live: set<int>, first: int, v: int, x: int)
    requires TreeInv(t, n, live, first) && v in live && x in live
    ensures x in Subtree(t.forest, v) <==> exists k: nat :: Up(t.parent, x, k) == v
  {
    BelowFacts(t.children, t.forest, v);
    SpellsRange(t.children, t.forest, x);
    if x in Nodes(Below(t.forest, v)) {
      var k := DescentFound(t, n, Below(t.forest, v), v, x);
    } else if x == v {
      assert Up(t.parent, x, 0) == v;
    }
    if k: nat :| Up(t.parent, x, k) == v {
      ClimbStays(t, n, v, x, k);
    }
  }

  lemma {:induction false} DescentFound(t: Tree, n: nat, f: Forest, v: int, x: int) returns (k: nat)
    requires Linked(t, n) && Spells(t.children, f) && x in Nodes(f)
    requires 0 <= v < n && forall r :: r in Roots(f) ==> r in t.children[v]
    ensures Up(t.parent, x, k) == v
    decreases f
  {
    if x == f.id {
      assert x in Roots(f);
      k := 1;
      assert Up(t.parent, t.parent[x], 0) == v;
    } else if x in Nodes(f.kids) {
      k := DescentFound(t, n, f.kids, f.id, x);
      assert f.id in Roots(f);
      UpNext(t.parent, x, k);
      k := k + 1;
    } else {
      assert forall r :: r in Roots(f.rest) ==> r in Roots(f);
      k := DescentFound(t, n, f.rest, v, x);
    }
  }

  lemma {:induction false} UpNext(parent: seq<int>, x: int, k: nat)
    requires 0 <= Up(parent, x, k) < |parent|
    ensures Up(parent, x, k + 1) == parent[Up(parent, x, k)]
    decreases k
  {
    if k > 0 && 0 <= x < |parent| {
      UpNext(parent, parent[x], k - 1);
    }
  }

  /** Climbing from outside the subtree never enters it. */
  lemma {:induction false} ClimbStays(t: Tree, n: nat, v: int, x: int, k: nat)
    requires Linked(t, n) && Spells(t.children, t.forest) && Simple(t.forest) && v in Nodes(t.forest)
    requires Up(t.parent, x, k) == v
    ensures x in Subtree(t.forest, v)
    decreases k
  {
    if k > 0 {
      SpellsRange(t.children, t.forest, v);
      ClimbStays(t, n, v, t.parent[x], k - 1);
      var p := t.parent[x];
      SubtreeRange(t, v, p);
      SubtreeClosed(t, v, p, x);
    }
  }

  lemma SubtreeRange(t: Tree, v: int, p: int)
    requires Spells(t.children, t.forest) && Simple(t.forest) && v in Nodes(t.forest) && p in Subtree(t.forest, v)
    ensures 0 <= p < |t.children|
  {
    BelowFacts(t.children, t.forest, v);
    SpellsRange(t.children, t.forest, p);
  }

  // ----- reaping on the lists ---------------------------------------------------

  /** The processes of ks die, one after the other. */
  ghost function Reaps(l: Lists, ks: seq<int>): Lists
    decreases |ks|
  {
    if ks == [] then l else Reaps(AfterReap(l, ks[0]), ks[1..])
  }

  function ReapOps(ks: seq<int>): seq<Op> {
    if ks == [] then [] else [Reap(ks[0])] + ReapOps(ks[1..])
  }

  lemma {:induction false} ReapsConcat(l: Lists, ks: seq<int>, js: seq<int>)
    ensures Reaps(l, ks + js) == Reaps(Reaps(l, ks), js)
    decreases |ks|
  {
    if ks == [] {
      assert ks + js == js;
    } else {
      assert (ks + js)[1..] == ks[1..] + js;
      ReapsConcat(AfterReap(l, ks[0]), ks[1..], js);
    }
  }

  /** q without the members of s. */
  function Minus(q: seq<int>, s: set<int>): seq<int> {
    if q == [] then [] else (if q[0] in s then [] else [q[0]]) + Minus(q[1..], s)
  }

  lemma {:induction false} MinusWithout(q: seq<int>, x: int, s: set<int>)
    requires Distinct(q)
    ensures Minus(Without(q, x), s) == Minus(q, {x} + s)
  {
    hide Distinct, Without;
    if q == [] {
      assert Without(q, x) == [];
    } else {
      hide Minus;
      DistinctTail(q);
      WithoutTail(q, x);
      assert [q[0]] + q[1..] == q;
      MinusCons(q[0], q[1..], {x} + s);
      if q[0] == x {
        MinusNothing(q[1..], x, s);
      } else {
        MinusWithout(q[1..], x, s);
        MinusCons(q[0], Without(q[1..], x), s);
      }
    }
  }

  lemma MinusCons(h: int, r: seq<int>, s: set<int>)
    ensures Minus([h] + r, s) == (if h in s then [] else [h]) + Minus(r, s)
  {
    assert ([h] + r)[1..] == r;
  }

  lemma {:induction false} MinusNothing(q: seq<int>, x: int, s: set<int>)
    requires x !in q
    ensures Minus(q, s) == Minus(q, {x} + s)
  {
    if q != [] {
      MinusNothing(q[1..], x, s);
    }
  }

  lemma {:induction false} MinusEmpty(q: seq<int>)
    ensures Minus(q, {}) == q
  {
    if q != [] {
      MinusEmpty(q[1..]);
    }
  }

  /** What the processes of ks that queue at a wait for. */
  function Refund(l: Lists, ks: seq<int>, a: int): int {
    if ks == [] then 0 else (if Is(l, ks[0], Blocked(a)) then -NeedOf(l.need, ks[0]) else 0) + Refund(l, ks[1..], a)
  }

  lemma {:induction false} RefundFrame(l: Lists, m: Lists, ks: seq<int>, a: int)
    requires m.need == l.need && |m.status| == |l.status|
    requires forall p :: p in ks && 0 <= p < |l.status| ==> m.status[p] == l.status[p]
    ensures Refund(m, ks, a) == Refund(l, ks, a)
  {
    if ks != [] {
      assert ks[0] in ks;
      RefundFrame(l, m, ks[1..], a);
    }
  }

  /** The victims of a kill: distinct, blocked. */
  ghost predicate Victims(l: Lists, ks: seq<int>) {
    Distinct(ks) && forall p :: p in ks ==> IsBlocked(l, p)
  }

  /** m is l after the deaths of ks, in this order, but for queues and values. */
  ghost predicate Died(l: Lists, ks: seq<int>, m: Lists) {
    && m.dev == l.dev && m.need == l.need && m.ready == l.ready && |m.status| == |l.status|
    && m.free == l.free + ks
    && m.processCount == l.processCount - |ks| && m.softBlockCount == l.softBlockCount - |ks|
    && forall p {:trigger m.status[p]} :: 0 <= p < |l.status| ==> m.status[p] == if p in ks then Free else l.status[p]
  }

  lemma {:induction false} DiedFirst(l: Lists, ks: seq<int>)
    requires Inv(l) && Victims(l, ks) && ks != []
    ensures Inv(AfterReap(l, ks[0])) && Died(l, ks[..1], AfterReap(l, ks[0]))
    ensures AfterReap(l, ks[0]).status == l.status[ks[0] := Free]
    ensures Victims(AfterReap(l, ks[0]), ks[1..])
  {
    assert ks[0] in ks && IsBlocked(l, ks[0]) && ks[..1] == [ks[0]];
    ReapKeeps(l, ks[0]);
    DistinctTail(ks);
    var m := AfterReap(l, ks[0]);
    forall p | p in ks[1..]
      ensures IsBlocked(m, p)
    {
      assert p in ks && p != ks[0] && m.status[p] == l.status[p];
    }
  }

  lemma {:induction false} DiedChain(l: Lists, ks: seq<int>, m: Lists, js: seq<int>, u: Lists)
    requires Died(l, ks, m) && Died(m, js, u)
    ensures Died(l, ks + js, u)
  {
    assert u.free == l.free + (ks + js);
  }

  /** Reaping keeps the invariant, and changes the place of the victims only. */
  lemma {:induction false} ReapsKeep(l: Lists, ks: seq<int>)
    requires Inv(l) && Victims(l, ks)
    ensures Inv(Reaps(l, ks)) && Died(l, ks, Reaps(l, ks))
    ensures Reaps(l, ks) == Run(l, ReapOps(ks)) && Legal(l, ReapOps(ks))
    decreases |ks|
  {
    if ks != [] {
      DiedFirst(l, ks);
      var m := AfterReap(l, ks[0]);
      ReapsKeep(m, ks[1..]);
      DiedChain(l, ks[..1], m, ks[1..], Reaps(m, ks[1..]));
      assert ks == ks[..1] + ks[1..];
      assert ReapOps(ks)[1..] == ReapOps(ks[1..]);
      assert ks[0] in ks;
    }
  }

  /** Each queue loses exactly the victims, in place, and each semaphore that
      is not a device's is given back what its victims waited for. */
  lemma {:induction false} ReapsExact(l: Lists, ks: seq<int>, a: int)
    requires Inv(l) && Victims(l, ks)
    ensures QueueAt(Reaps(l, ks).queue, a) == Minus(QueueAt(l.queue, a), Members(ks))
    ensures Val(Reaps(l, ks).sem, a) == Val(l.sem, a) + if l.dev <= a <= l.dev + 48 then 0 else Refund(l, ks, a)
    decreases |ks|
  {
    var q := QueueAt(l.queue, a);
    if ks == [] {
      MinusEmpty(q);
      assert Members(ks) == {};
    } else {
      DiedFirst(l, ks);
      ReapsExact(AfterReap(l, ks[0]), ks[1..], a);
      ReapExact(l, ks, a, AfterReap(l, ks[0]));
    }
  }

  lemma {:induction false} ReapExact(l: Lists, ks: seq<int>, a: int, m: Lists)
    requires Inv(l) && Victims(l, ks) && ks != []
    requires m == AfterReap(l, ks[0]) && Died(l, ks[..1], m)
    ensures Minus(QueueAt(m.queue, a), Members(ks[1..])) == Minus(QueueAt(l.queue, a), Members(ks))
    ensures IsDevice(m, a) == IsDevice(l, a)
    ensures Val(m.sem, a) + (if IsDevice(l, a) then 0 else Refund(m, ks[1..], a)) ==
      Val(l.sem, a) + (if IsDevice(l, a) then 0 else Refund(l, ks, a))
  {
    var q, x := QueueAt(l.queue, a), ks[0];
    assert ks[0] in ks && IsBlocked(l, x);
    DistinctTail(ks);
    LocalKill(l, x, a);
    RefundFrame(l, m, ks[1..], a);
    QueueNeeds(l, a);
    assert Members(ks) == {x} + Members(ks[1..]);
    if Is(l, x, Blocked(a)) {
      MinusWithout(q, x, Members(ks[1..]));
    } else {
      assert x !in q;
      MinusNothing(q, x, Members(ks[1..]));
    }
  }

  // ----- deaths that also leave the ready queue ------------------------------------

  /** The processes of ks die, one after the other, and leave the ready queue
      as well. */
  ghost function Kills(l: Lists, ks: seq<int>): Lists
    decreases |ks|
  {
    if ks == [] then l else Kills(AfterKill(l, ks[0]), ks[1..])
  }

  function KillEach(ks: seq<int>): seq<Op> {
    if ks == [] then [] else [Kill(ks[0])] + KillEach(ks[1..])
  }

  /** How many of ks are blocked. */
  function BlockedAmong(l: Lists, ks: seq<int>): nat {
    if ks == [] then 0 else (if IsBlocked(l, ks[0]) then 1 else 0) + BlockedAmong(l, ks[1..])
  }

  /** Those who are to die: alive, each named once. */
  ghost predicate Condemned(l: Lists, ks: seq<int>) {
    Distinct(ks) && forall p :: p in ks ==> p in Live(l)
  }

  /** m is l after the deaths of ks, but for queues and values. */
  ghost predicate Killed(l: Lists, ks: seq<int>, m: Lists) {
    && m.dev == l.dev && m.need == l.need && |m.status| == |l.status|
    && m.free == l.free + ks && m.ready == Minus(l.ready, Members(ks))
    && m.processCount == l.processCount - |ks| && m.softBlockCount == l.softBlockCount - BlockedAmong(l, ks)
    && forall p {:trigger m.status[p]} :: 0 <= p < |l.status| ==> m.status[p] == if p in ks then Free else l.status[p]
  }

  lemma {:induction false} KillsConcat(l: Lists, ks: seq<int>, js: seq<int>)
    ensures Kills(l, ks + js) == Kills(Kills(l, ks), js)
    decreases |ks|
  {
    if ks == [] {
      assert ks + js == js;
    } else {
      assert (ks + js)[1..] == ks[1..] + js;
      KillsConcat(AfterKill(l, ks[0]), ks[1..], js);
    }
  }

  lemma KillsOne(l: Lists, v: int)
    ensures Kills(l, [v]) == AfterKill(l, v)
  {
    assert [v][1..] == [];
  }

  /** Where none of the dead is ready, it makes no difference. */
  lemma {:induction false} KillsAreReaps(l: Lists, ks: seq<int>)
    requires forall p :: p in ks ==> p !in l.ready
    ensures Kills(l, ks) == Reaps(l, ks)
    decreases |ks|
  {
    if ks != [] {
      assert ks[0] in ks;
      assert AfterKill(l, ks[0]) == AfterReap(l, ks[0]);
      KillsAreReaps(AfterReap(l, ks[0]), ks[1..]);
    }
  }

  lemma {:induction false} BlockedFrame(l: Lists, m: Lists, ks: seq<int>)
    requires |m.status| == |l.status| && forall p :: p in ks && 0 <= p < |l.status| ==> m.status[p] == l.status[p]
    ensures BlockedAmong(m, ks) == BlockedAmong(l, ks)
  {
    if ks != [] {
      assert ks[0] in ks;
      BlockedFrame(l, m, ks[1..]);
    }
  }

  /** One death. */
  lemma {:induction false} KillFirst(l: Lists, ks: seq<int>)
    requires Inv(l) && Condemned(l, ks) && ks != []
    ensures var m := AfterKill(l, ks[0]);
      && Inv(m) && Condemned(m, ks[1..]) && Distinct(l.ready)
      && m.dev == l.dev && m.need == l.need && m.status == l.status[ks[0] := Free]
      && m.free == l.free + [ks[0]] && m.ready == Without(l.ready, ks[0])
      && m.processCount == l.processCount - 1 && m.softBlockCount == l.softBlockCount - BlockedAmong(l, [ks[0]])
    ensures 0 <= ks[0] < |l.status| && ks[0] !in ks[1..] && Members(ks) == {ks[0]} + Members(ks[1..])
  {
    var p := ks[0];
    assert p in ks && p in Live(l);
    KillKeeps(l, p);
    DistinctTail(ks);
    var m := AfterKill(l, p);
    forall x | x in ks[1..]
      ensures x in Live(m)
    {
      assert x in ks && x != p;
    }
    assert [p][1..] == [];
  }

  lemma KilledChain(l: Lists, ks: seq<int>, m: Lists, u: Lists)
    requires ks != [] && Distinct(l.ready) && 0 <= ks[0] < |l.status| && ks[0] !in ks[1..]
    requires Members(ks) == {ks[0]} + Members(ks[1..])
    requires m.dev == l.dev && m.need == l.need && m.status == l.status[ks[0] := Free]
    requires m.free == l.free + [ks[0]] && m.ready == Without(l.ready, ks[0])
    requires m.processCount == l.processCount - 1 && m.softBlockCount == l.softBlockCount - BlockedAmong(l, [ks[0]])
    requires Killed(m, ks[1..], u)
    ensures Killed(l, ks, u)
  {
    assert ks == [ks[0]] + ks[1..];
    assert u.free == l.free + ks;
    MinusWithout(l.ready, ks[0], Members(ks[1..]));
    BlockedFrame(l, m, ks[1..]);
    assert [ks[0]][1..] == [];
    assert forall p :: p in ks <==> p == ks[0] || p in ks[1..];
  }

  /** The partition survives all of it, whoever dies. */
  lemma {:induction false} KillsKeep(l: Lists, ks: seq<int>)
    requires Inv(l) && Condemned(l, ks)
    ensures Inv(Kills(l, ks)) && Killed(l, ks, Kills(l, ks))
    ensures Kills(l, ks) == Run(l, KillEach(ks)) && Legal(l, KillEach(ks))
    decreases |ks|
  {
    hide Inv, AfterKill, Condemned, Killed, Distinct;
    if ks == [] {
      NobodyKilled(l);
    } else {
      var m := AfterKill(l, ks[0]);
      KillFirst(l, ks);
      KillsKeep(m, ks[1..]);
      KilledChain(l, ks, m, Kills(m, ks[1..]));
      assert KillEach(ks)[0] == Kill(ks[0]) && KillEach(ks)[1..] == KillEach(ks[1..]);
      KillEnabled(l, ks);
    }
  }

  lemma KillEnabled(l: Lists, ks: seq<int>)
    requires Condemned(l, ks) && ks != []
    ensures Enabled(l, Kill(ks[0]))
  {
    assert ks[0] in ks && ks[0] in Live(l);
  }

  lemma NobodyKilled(l: Lists)
    ensures Killed(l, [], l)
  {
    assert Members([]) == {};
    MinusEmpty(l.ready);
    assert l.free + [] == l.free;
  }

  /** Each queue loses exactly the dead, in place, and each semaphore that is
      not a device's is given back what they waited for. */
  lemma {:induction false} KillsExact(l: Lists, ks: seq<int>, a: int)
    requires Inv(l) && Condemned(l, ks)
    ensures QueueAt(Kills(l, ks).queue, a) == Minus(QueueAt(l.queue, a), Members(ks))
    ensures Val(Kills(l, ks).sem, a) == Val(l.sem, a) + if l.dev <= a <= l.dev + 48 then 0 else Refund(l, ks, a)
    decreases |ks|
  {
    hide Inv, AfterKill, Condemned, Distinct;
    var q := QueueAt(l.queue, a);
    if ks == [] {
      MinusEmpty(q);
      assert Members(ks) == {};
    } else {
      var m := AfterKill(l, ks[0]);
      KillFirst(l, ks);
      KillsExact(m, ks[1..], a);
      KillExact(l, ks, a, m);
    }
  }

  lemma {:induction false} KillExact(l: Lists, ks: seq<int>, a: int, m: Lists)
    requires Inv(l) && ks != [] && m == AfterKill(l, ks[0]) && 0 <= ks[0] < |l.status| && ks[0] !in ks[1..]
    requires m.dev == l.dev && m.need == l.need && m.status == l.status[ks[0] := Free]
    requires Members(ks) == {ks[0]} + Members(ks[1..])
    ensures Minus(QueueAt(m.queue, a), Members(ks[1..])) == Minus(QueueAt(l.queue, a), Members(ks))
    ensures IsDevice(m, a) == IsDevice(l, a)
    ensures Val(m.sem, a) + (if IsDevice(l, a) then 0 else Refund(m, ks[1..], a)) ==
      Val(l.sem, a) + (if IsDevice(l, a) then 0 else Refund(l, ks, a))
  {
    hide Inv, AfterKill;
    var q, x := QueueAt(l.queue, a), ks[0];
    LocalKill(l, x, a);
    RefundFrame(l, m, ks[1..], a);
    QueueNeeds(l, a);
    if Is(l, x, Blocked(a)) {
      MinusWithout(q, x, Members(ks[1..]));
    } else {
      assert x !in q;
      MinusNothing(q, x, Members(ks[1..]));
    }
  }

  // ----- deaths in either kernel -----------------------------------------------------

  /** The deaths of ks, in the kernel as written or in the repaired one. */
  ghost function Deaths(l: Lists, ks: seq<int>, repaired: bool): Lists {
    if repaired then Kills(l, ks) else Reaps(l, ks)
  }

  ghost function AfterDeath(l: Lists, p: int, repaired: bool): Lists {
    if repaired then AfterKill(l, p) else AfterReap(l, p)
  }

  lemma DeathsConcat(l: Lists, ks: seq<int>, js: seq<int>, repaired: bool)
    ensures Deaths(l, ks + js, repaired) == Deaths(Deaths(l, ks, repaired), js, repaired)
  {
    KillsConcat(l, ks, js);
    ReapsConcat(l, ks, js);
  }

  lemma DeathsOne(l: Lists, p: int, repaired: bool)
    ensures Deaths(l, [p], repaired) == AfterDeath(l, p, repaired) && Deaths(l, [], repaired) == l
  {
    assert [p][0] == p && [p][1..] == [];
    KillsOne(l, p);
    assert Reaps(l, [p]) == Reaps(AfterReap(l, p), []) == AfterReap(l, p);
  }
}
