/** The process forest, as an inductive value: the first child and the next
    sibling of every node, the way p_children and p_siblings link them.
 */
module Forests {
  import opened Clist

  datatype Forest = Nil | Cons(id: int, kids: Forest, rest: Forest)

  function Roots(f: Forest): seq<int> {
    match f
    case Nil => []
    case Cons(x, _, rest) => [x] + Roots(rest)
  }

  function Nodes(f: Forest): set<int> {
    match f
    case Nil => {}
    case Cons(x, kids, rest) => {x} + Nodes(kids) + Nodes(rest)
  }

  /** Every node occurs once. */
  ghost predicate Simple(f: Forest) {
    match f
    case Nil => true
    case Cons(x, kids, rest) =>
      && x !in Nodes(kids) && x !in Nodes(rest) && Nodes(kids) !! Nodes(rest)
      && Simple(kids) && Simple(rest)
  }

  /** Children first, then the node: the order in which a subtree is killed. */
  function Post(f: Forest): seq<int> {
    match f
    case Nil => []
    case Cons(x, kids, rest) => Post(kids) + [x] + Post(rest)
  }

  /** The node first, then its children: the order in which a pid is searched. */
  function Pre(f: Forest): seq<int> {
    match f
    case Nil => []
    case Cons(x, kids, rest) => [x] + Pre(kids) + Pre(rest)
  }

  /** The child lists in memory spell out f. */
  ghost predicate Spells(ch: seq<seq<int>>, f: Forest) {
    match f
    case Nil => true
    case Cons(x, kids, rest) => 0 <= x < |ch| && ch[x] == Roots(kids) && Spells(ch, kids) && Spells(ch, rest)
  }

  /** The forest of proper descendants of v. */
  function Below(f: Forest, v: int): Forest {
    match f
    case Nil => Nil
    case Cons(x, kids, rest) => if x == v then kids else if v in Nodes(kids) then Below(kids, v) else Below(rest, v)
  }

  /** f without v and everything below it. */
  function Prune(f: Forest, v: int): Forest {
    match f
    case Nil => Nil
    case Cons(x, kids, rest) => if x == v then rest else Cons(x, Prune(kids, v), Prune(rest, v))
  }

  function AddLast(f: Forest, c: int): Forest {
    match f
    case Nil => Cons(c, Nil, Nil)
    case Cons(x, kids, rest) => Cons(x, kids, AddLast(rest, c))
  }

  /** f with c as a new last child of p. */
  function Graft(f: Forest, p: int, c: int): Forest {
    match f
    case Nil => Nil
    case Cons(x, kids, rest) =>
      if x == p then Cons(x, AddLast(kids, c), rest) else Cons(x, Graft(kids, p, c), Graft(rest, p, c))
  }

  /** The subtree of v: v and its proper descendants. */
  function Subtree(f: Forest, v: int): set<int> {
    {v} + Nodes(Below(f, v))
  }

  // ----- traversals list every node once -----------------------------------

  lemma {:induction false} PostNodes(f: Forest)
    ensures forall x :: x in Post(f) <==> x in Nodes(f)
    ensures Simple(f) ==> Distinct(Post(f))
  {
    match f {
      case Nil =>
      case Cons(x, kids, rest) =>
        PostNodes(kids);
        PostNodes(rest);
        if Simple(f) {
          DistinctConcat(Post(kids), [x]);
          DistinctConcat(Post(kids) + [x], Post(rest));
        }
    }
  }

  lemma {:induction false} PreNodes(f: Forest)
    ensures forall x :: x in Pre(f) <==> x in Nodes(f)
  {
    match f {
      case Nil =>
      case Cons(x, kids, rest) =>
        PreNodes(kids);
        PreNodes(rest);
    }
  }

  lemma {:induction false} RootsNodes(f: Forest)
    ensures forall x :: x in Roots(f) ==> x in Nodes(f)
    ensures Simple(f) ==> Distinct(Roots(f))
  {
    match f {
      case Nil =>
      case Cons(x, _, rest) =>
        RootsNodes(rest);
        if Simple(f) {
          DistinctConcat([x], Roots(rest));
        }
    }
  }

  // ----- the forest and the child lists -----------------------------------

  lemma {:induction false} SpellsFrame(ch: seq<seq<int>>, ch': seq<seq<int>>, f: Forest)
    requires Spells(ch, f) && |ch'| == |ch|
    requires forall x :: x in Nodes(f) && 0 <= x < |ch| ==> ch'[x] == ch[x]
    ensures Spells(ch', f)
  {
    match f {
      case Nil =>
      case Cons(x, kids, rest) =>
        SpellsFrame(ch, ch', kids);
        SpellsFrame(ch, ch', rest);
    }
  }

  /** The child lists determine the forest that hangs below a list of roots. */
  lemma {:induction false} SpellsUnique(ch: seq<seq<int>>, f: Forest, g: Forest)
    requires Spells(ch, f) && Spells(ch, g) && Roots(f) == Roots(g)
    ensures f == g
  {
    if f.Cons? {
      assert Roots(f)[1..] == Roots(f.rest) && Roots(g)[1..] == Roots(g.rest);
      assert f.id == Roots(f)[0] == Roots(g)[0] == g.id;
      SpellsUnique(ch, f.kids, g.kids);
      SpellsUnique(ch, f.rest, g.rest);
    }
  }

  lemma {:induction false} BelowFacts(ch: seq<seq<int>>, f: Forest, v: int)
    requires Spells(ch, f) && Simple(f) && v in Nodes(f)
    ensures 0 <= v < |ch| && ch[v] == Roots(Below(f, v)) && Spells(ch, Below(f, v))
    ensures Simple(Below(f, v)) && Subtree(f, v) <= Nodes(f) && v !in Nodes(Below(f, v))
  {
    var Cons(x, kids, rest) := f;
    if x != v {
      BelowFacts(ch, if v in Nodes(kids) then kids else rest, v);
    }
  }

  lemma {:induction false} PruneAbsent(f: Forest, v: int)
    requires v !in Nodes(f)
    ensures Prune(f, v) == f && Below(f, v) == Nil
  {
    match f {
      case Nil =>
      case Cons(x, kids, rest) =>
        PruneAbsent(kids, v);
        PruneAbsent(rest, v);
    }
  }

  lemma {:induction false} PruneNodes(ch: seq<seq<int>>, f: Forest, v: int)
    requires Spells(ch, f) && Simple(f)
    ensures Simple(Prune(f, v))
    ensures Nodes(Prune(f, v)) == if v in Nodes(f) then Nodes(f) - Subtree(f, v) else Nodes(f)
  {
    if f.Cons? && f.id != v {
      BelowSides(ch, f, v);
      PruneNodes(ch, f.kids, v);
      PruneNodes(ch, f.rest, v);
    }
  }

  lemma {:induction false} PruneRoots(f: Forest, v: int)
    requires Simple(f)
    ensures Roots(Prune(f, v)) == Without(Roots(f), v)
  {
    if f.Cons? {
      RootsNodes(f);
      assert Roots(f)[1..] == Roots(f.rest);
      WithoutTail(Roots(f), v);
      PruneRoots(f.rest, v);
    }
  }

  /** Cutting v out of its list and clearing everything below it is Prune. */
  lemma {:induction false} PruneSpells(ch: seq<seq<int>>, ch': seq<seq<int>>, f: Forest, v: int)
    requires Spells(ch, f) && Simple(f) && |ch'| == |ch|
    requires forall x {:trigger ch'[x]} :: x in Nodes(f) && x !in Subtree(f, v) && 0 <= x < |ch| ==> ch'[x] == Without(ch[x], v)
    ensures Spells(ch', Prune(f, v))
  {
    match f {
      case Nil =>
      case Cons(x, kids, rest) =>
        if x == v {
          forall y | y in Nodes(rest) && 0 <= y < |ch|
            ensures ch'[y] == ch[y]
          {
            SpellsRange(ch, rest, y);
          }
          SpellsFrame(ch, ch', rest);
        } else {
          BelowSides(ch, f, v);
          PruneRoots(kids, v);
          PruneSpells(ch, ch', kids, v);
          PruneSpells(ch, ch', rest, v);
        }
    }
  }

  /** A listed child belongs to the forest. */
  lemma {:induction false} SpellsRange(ch: seq<seq<int>>, f: Forest, y: int)
    requires Spells(ch, f) && y in Nodes(f)
    ensures 0 <= y < |ch| && forall c :: c in ch[y] ==> c in Nodes(f)
  {
    var Cons(x, kids, rest) := f;
    if x == y {
      RootsNodes(kids);
    } else {
      SpellsRange(ch, if y in Nodes(kids) then kids else rest, y);
    }
  }

  lemma {:induction false} BelowSides(ch: seq<seq<int>>, f: Forest, v: int)
    requires Spells(ch, f) && Simple(f) && f.Cons? && f.id != v
    ensures v !in Nodes(f.kids) ==> Below(f.kids, v) == Nil
    ensures v !in Nodes(f.rest) ==> Below(f.rest, v) == Nil
    ensures Subtree(f, v) == if v in Nodes(f.kids) then Subtree(f.kids, v) else Subtree(f.rest, v)
    ensures f.id !in Subtree(f, v)
    ensures v in Nodes(f.kids) ==> Subtree(f, v) !! Nodes(f.rest)
    ensures v !in Nodes(f.kids) ==> Subtree(f, v) !! Nodes(f.kids)
  {
    if v in Nodes(f.kids) {
      BelowFacts(ch, f.kids, v);
      PruneAbsent(f.rest, v);
    } else {
      PruneAbsent(f.kids, v);
      if v in Nodes(f.rest) {
        BelowFacts(ch, f.rest, v);
      } else {
        PruneAbsent(f.rest, v);
      }
    }
  }

  lemma {:induction false} AddLastNodes(f: Forest, c: int)
    requires Simple(f) && c !in Nodes(f)
    ensures Simple(AddLast(f, c)) && Roots(AddLast(f, c)) == Roots(f) + [c] && Nodes(AddLast(f, c)) == Nodes(f) + {c}
  {
    if f.Cons? {
      AddLastNodes(f.rest, c);
    }
  }

  lemma {:induction false} AddLastSpells(ch: seq<seq<int>>, f: Forest, c: int)
    requires Spells(ch, f) && 0 <= c < |ch| && ch[c] == []
    ensures Spells(ch, AddLast(f, c))
  {
    if f.Cons? {
      AddLastSpells(ch, f.rest, c);
    }
  }

  lemma {:induction false} GraftNodes(f: Forest, p: int, c: int)
    requires Simple(f) && c !in Nodes(f)
    ensures Simple(Graft(f, p, c)) && Roots(Graft(f, p, c)) == Roots(f)
    ensures Nodes(Graft(f, p, c)) == if p in Nodes(f) then Nodes(f) + {c} else Nodes(f)
  {
    match f {
      case Nil =>
      case Cons(x, kids, rest) =>
        GraftNodes(kids, p, c);
        GraftNodes(rest, p, c);
        if x == p {
          AddLastNodes(kids, c);
        }
    }
  }

  /** Appending a childless c to the list of p is Graft. */
  lemma {:induction false} GraftFacts(ch: seq<seq<int>>, ch': seq<seq<int>>, f: Forest, p: int, c: int)
    requires Spells(ch, f) && Simple(f) && c !in Nodes(f)
    requires |ch'| == |ch| && 0 <= c < |ch| && ch'[c] == []
    requires forall x :: x in Nodes(f) && 0 <= x < |ch| ==> ch'[x] == if x == p then ch[x] + [c] else ch[x]
    ensures Spells(ch', Graft(f, p, c)) && Simple(Graft(f, p, c)) && Roots(Graft(f, p, c)) == Roots(f)
    ensures Nodes(Graft(f, p, c)) == if p in Nodes(f) then Nodes(f) + {c} else Nodes(f)
  {
    hide Simple, Graft, Nodes, Spells, Roots;
    GraftNodes(f, p, c);
    GraftSpells(ch, ch', f, p, c);
  }

  lemma {:induction false} GraftSpells(ch: seq<seq<int>>, ch': seq<seq<int>>, f: Forest, p: int, c: int)
    requires Spells(ch, f) && Simple(f) && c !in Nodes(f)
    requires |ch'| == |ch| && 0 <= c < |ch| && ch'[c] == []
    requires forall x :: x in Nodes(f) && 0 <= x < |ch| ==> ch'[x] == if x == p then ch[x] + [c] else ch[x]
    ensures Spells(ch', Graft(f, p, c))
  {
    hide AddLast;
    match f {
      case Nil =>
      case Cons(x, kids, rest) =>
        if x == p {
          SpellsFrame(ch, ch', kids);
          SpellsFrame(ch, ch', rest);
          AddLastNodes(kids, c);
          AddLastSpells(ch', kids, c);
        } else {
          GraftNodes(kids, p, c);
          GraftSpells(ch, ch', kids, p, c);
          GraftSpells(ch, ch', rest, p, c);
        }
    }
  }

  // ----- the order of the traversals -------------------------------------------

  /** x occurs in q in front of y. */
  predicate Before(q: seq<int>, x: int, y: int) {
    q != [] && ((q[0] == x && y in q[1..]) || Before(q[1..], x, y))
  }

  lemma {:induction false} BeforeConcat(q: seq<int>, r: seq<int>, x: int, y: int)
    ensures Before(q + r, x, y) <==> Before(q, x, y) || Before(r, x, y) || (x in q && y in r)
  {
    if q == [] {
      assert q + r == r;
    } else {
      assert (q + r)[1..] == q[1..] + r;
      BeforeConcat(q[1..], r, x, y);
    }
  }

  lemma BeforeOne(r: int, x: int, y: int)
    ensures !Before([r], x, y)
  {
    assert [r][1..] == [];
  }

  /** Among some siblings, x is below or is one that stands before the one that
      y is or is below. */
  predicate Elder(f: Forest, x: int, y: int) {
    match f
    case Nil => false
    case Cons(r, kids, rest) => ((x == r || x in Nodes(kids)) && y in Nodes(rest)) || Elder(kids, x, y) || Elder(rest, x, y)
  }

  lemma {:induction false} BelowInside(f: Forest, x: int)
    ensures Nodes(Below(f, x)) <= Nodes(f) && (x !in Nodes(f) ==> Below(f, x) == Nil)
  {
    if f.Cons? {
      BelowInside(f.kids, x);
      BelowInside(f.rest, x);
    }
  }

  lemma {:induction false} ElderInside(f: Forest, x: int, y: int)
    ensures Elder(f, x, y) ==> x in Nodes(f) && y in Nodes(f)
  {
    if f.Cons? {
      ElderInside(f.kids, x, y);
      ElderInside(f.rest, x, y);
    }
  }

  /** Preorder: a node comes before what is below it, and elders first. */
  lemma {:induction false} PreOrder(f: Forest, x: int, y: int)
    requires Simple(f)
    ensures Before(Pre(f), x, y) <==> y in Nodes(Below(f, x)) || Elder(f, x, y)
  {
    match f {
      case Nil =>
      case Cons(r, kids, rest) =>
        PreOrder(kids, x, y);
        PreOrder(rest, x, y);
        PreNodes(kids);
        PreNodes(rest);
        BeforeOne(r, x, y);
        BeforeConcat([r], Pre(kids), x, y);
        BeforeConcat([r] + Pre(kids), Pre(rest), x, y);
        BelowInside(kids, x);
        BelowInside(rest, x);
    }
  }

  /** Postorder: a node comes after what is below it, and elders first. */
  lemma {:induction false} PostOrder(f: Forest, x: int, y: int)
    requires Simple(f)
    ensures Before(Post(f), x, y) <==> x in Nodes(Below(f, y)) || Elder(f, x, y)
  {
    match f {
      case Nil =>
      case Cons(r, kids, rest) =>
        PostOrder(kids, x, y);
        PostOrder(rest, x, y);
        PostNodes(kids);
        PostNodes(rest);
        BeforeOne(r, x, y);
        BeforeConcat(Post(kids), [r], x, y);
        BeforeConcat(Post(kids) + [r], Post(rest), x, y);
        BelowInside(kids, y);
        BelowInside(rest, y);
    }
  }
}
