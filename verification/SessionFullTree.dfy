/** FullTree: the depth-first listing of every entry, with the active branch as one block. */
module SessionFullTree {
  import opened SessionModel
  import opened SessionTree
  import opened Sorting

  type Kids = map<Id, seq<Id>>

  datatype Row = Row(id: Id, parentId: Id, typ: string, ts: int, children: nat,
                     onActivePath: bool, depth: nat, tag: string, tokensBefore: int)

  function KidsOf(kids: Kids, id: Id): seq<Id> { if id in kids then kids[id] else [] }

  function Ids(p: seq<Id>): set<Id> { set x | x in p }

  ghost predicate NoDup<T>(xs: seq<T>) { forall i, j | 0 <= i < j < |xs| :: xs[i] != xs[j] }

  /** `cs` lists the entries whose parent is `parent` ("" for the roots), once each. */
  ghost predicate Lists(nodes: map<Id, Node>, parent: Id, cs: seq<Id>) {
    NoDup(cs) && forall c :: c in cs <==> c in nodes && nodes[c].parentId == parent
  }

  ghost predicate ListsAll(nodes: map<Id, Node>, kids: Kids) {
    forall id {:trigger KidsOf(kids, id)} | id != "" :: Lists(nodes, id, KidsOf(kids, id))
  }

  /** Active subtree first. */
  ghost predicate ActiveFirst(active: set<Id>, cs: seq<Id>) {
    forall i, j | 0 <= i < j < |cs| :: cs[j] in active ==> cs[i] in active
  }

  ghost predicate AllActiveFirst(active: set<Id>, kids: Kids) {
    forall id {:trigger KidsOf(kids, id)} | id != "" :: ActiveFirst(active, KidsOf(kids, id))
  }

  /** A root-to-entry path; the empty path stands above the roots. */
  ghost predicate Path(nodes: map<Id, Node>, p: seq<Id>) {
    p == [] || (Walk(nodes, p[|p| - 1], p) && p[0] in nodes)
  }

  function Last(p: seq<Id>): Id { if p == [] then "" else p[|p| - 1] }

  ghost predicate AreChildren(nodes: map<Id, Node>, parent: Id, cs: seq<Id>) {
    "" !in nodes && forall c | c in cs :: c in nodes && nodes[c].parentId == parent
  }

  lemma PathSnoc(nodes: map<Id, Node>, p: seq<Id>, c: Id)
    requires Path(nodes, p) && "" !in nodes && c in nodes && nodes[c].parentId == Last(p)
    ensures Path(nodes, p + [c]) && c !in p
    ensures nodes.Keys - Ids(p + [c]) < nodes.Keys - Ids(p)
  {
    WalkDistinct(nodes, c, p + [c]);
    forall i | 0 <= i < |p| ensures p[i] != c {
      assert (p + [c])[i] == p[i] && (p + [c])[|p|] == c;
    }
    assert c in nodes.Keys - Ids(p) && c in p + [c];
  }

  /** The paths of the subtree at p, in the order the search visits them. */
  ghost function Preorder(nodes: map<Id, Node>, kids: Kids, p: seq<Id>): (r: seq<seq<Id>>)
    requires "" !in nodes && ListsAll(nodes, kids) && Path(nodes, p) && p != []
    decreases nodes.Keys - Ids(p), 1, 0
  {
    [p] + Forest(nodes, kids, p, KidsOf(kids, Last(p)))
  }

  ghost function Forest(nodes: map<Id, Node>, kids: Kids, p: seq<Id>, cs: seq<Id>): (r: seq<seq<Id>>)
    requires ListsAll(nodes, kids) && Path(nodes, p) && AreChildren(nodes, Last(p), cs)
    decreases nodes.Keys - Ids(p), 0, |cs|
  {
    if cs == [] then []
    else
      PathSnoc(nodes, p, cs[0]);
      Preorder(nodes, kids, p + [cs[0]]) + Forest(nodes, kids, p, cs[1..])
  }

  // ----- what the search visits -----

  lemma {:induction false} PreorderSound(nodes: map<Id, Node>, kids: Kids, p: seq<Id>)
    requires "" !in nodes && ListsAll(nodes, kids) && Path(nodes, p) && p != []
    ensures forall q | q in Preorder(nodes, kids, p) :: Path(nodes, q) && p <= q
    decreases nodes.Keys - Ids(p), 1, 0
  {
    ForestSound(nodes, kids, p, KidsOf(kids, Last(p)));
  }

  lemma {:induction false} ForestSound(nodes: map<Id, Node>, kids: Kids, p: seq<Id>, cs: seq<Id>)
    requires ListsAll(nodes, kids) && Path(nodes, p) && AreChildren(nodes, Last(p), cs)
    ensures forall q | q in Forest(nodes, kids, p, cs) ::
              Path(nodes, q) && |p| < |q| && p <= q && q[|p|] in cs
    decreases nodes.Keys - Ids(p), 0, |cs|
  {
    if cs != [] {
      PathSnoc(nodes, p, cs[0]);
      PreorderSound(nodes, kids, p + [cs[0]]);
      ForestSound(nodes, kids, p, cs[1..]);
      forall q | q in Forest(nodes, kids, p, cs)
        ensures Path(nodes, q) && |p| < |q| && p <= q && q[|p|] in cs
      {
        if q in Preorder(nodes, kids, p + [cs[0]]) {
          assert p + [cs[0]] <= q && q[|p|] == cs[0];
        } else {
          assert q in Forest(nodes, kids, p, cs[1..]);
        }
      }
    }
  }

  lemma {:induction false} PreorderComplete(nodes: map<Id, Node>, kids: Kids, p: seq<Id>, q: seq<Id>)
    requires "" !in nodes && ListsAll(nodes, kids) && Path(nodes, p) && p != []
    requires Path(nodes, q) && p <= q
    ensures q in Preorder(nodes, kids, p)
    decreases nodes.Keys - Ids(p), 1, 0
  {
    if p != q {
      var c := q[|p|];
      assert nodes[c].parentId == Last(p);
      assert c in KidsOf(kids, Last(p));
      ForestComplete(nodes, kids, p, KidsOf(kids, Last(p)), q);
    }
  }

  lemma {:induction false} ForestComplete(nodes: map<Id, Node>, kids: Kids, p: seq<Id>, cs: seq<Id>, q: seq<Id>)
    requires ListsAll(nodes, kids) && Path(nodes, p) && AreChildren(nodes, Last(p), cs)
    requires Path(nodes, q) && |p| < |q| && p <= q && q[|p|] in cs
    ensures q in Forest(nodes, kids, p, cs)
    decreases nodes.Keys - Ids(p), 0, |cs|
  {
    PathSnoc(nodes, p, cs[0]);
    if q[|p|] == cs[0] {
      assert p + [cs[0]] <= q;
      PreorderComplete(nodes, kids, p + [cs[0]], q);
    } else {
      ForestComplete(nodes, kids, p, cs[1..], q);
    }
  }

  lemma {:induction false} PreorderNoDup(nodes: map<Id, Node>, kids: Kids, p: seq<Id>)
    requires "" !in nodes && ListsAll(nodes, kids) && Path(nodes, p) && p != []
    ensures NoDup(Preorder(nodes, kids, p))
    decreases nodes.Keys - Ids(p), 1, 0
  {
    var cs := KidsOf(kids, Last(p));
    assert Lists(nodes, Last(p), cs);
    ForestNoDup(nodes, kids, p, cs);
    ForestSound(nodes, kids, p, cs);
    var f := Forest(nodes, kids, p, cs);
    forall i | 0 <= i < |f| ensures f[i] != p { assert f[i] in f; }
  }

  lemma {:induction false} ForestNoDup(nodes: map<Id, Node>, kids: Kids, p: seq<Id>, cs: seq<Id>)
    requires ListsAll(nodes, kids) && Path(nodes, p) && AreChildren(nodes, Last(p), cs) && NoDup(cs)
    ensures NoDup(Forest(nodes, kids, p, cs))
    decreases nodes.Keys - Ids(p), 0, |cs|
  {
    if cs != [] {
      PathSnoc(nodes, p, cs[0]);
      PreorderNoDup(nodes, kids, p + [cs[0]]);
      ForestNoDup(nodes, kids, p, cs[1..]);
      PreorderSound(nodes, kids, p + [cs[0]]);
      ForestSound(nodes, kids, p, cs[1..]);
      var x, y := Preorder(nodes, kids, p + [cs[0]]), Forest(nodes, kids, p, cs[1..]);
      assert forall q | q in x :: p + [cs[0]] <= q;
      ApartDistinct(p, cs, x, y);
      NoDupConcat(x, y);
    }
  }

  /** Paths through the first child differ from paths through the others. */
  lemma ApartDistinct(p: seq<Id>, cs: seq<Id>, x: seq<seq<Id>>, y: seq<seq<Id>>)
    requires cs != [] && NoDup(cs) && (forall q | q in x :: p + [cs[0]] <= q)
    requires forall q | q in y :: |p| < |q| && q[|p|] in cs[1..]
    ensures forall q | q in x :: q !in y
  {
    forall q | q in x ensures q !in y {
      assert (p + [cs[0]])[|p|] == q[|p|];
    }
  }

  lemma NoDupConcat<T>(xs: seq<T>, ys: seq<T>)
    requires NoDup(xs) && NoDup(ys) && forall q | q in xs :: q !in ys
    ensures NoDup(xs + ys)
  {
    forall i, j | 0 <= i < |xs| && 0 <= j < |ys| ensures xs[i] != ys[j] { assert xs[i] in xs && ys[j] in ys; }
  }

  /** A path other than the first is preceded by its own front. */
  ghost predicate FrontsFirst(above: seq<Id>, r: seq<seq<Id>>) {
    forall i | 0 <= i < |r| :: r[i] != [] && (r[i][..|r[i]| - 1] == above || r[i][..|r[i]| - 1] in r[..i])
  }

  lemma {:induction false} PreorderFrontsFirst(nodes: map<Id, Node>, kids: Kids, p: seq<Id>)
    requires "" !in nodes && ListsAll(nodes, kids) && Path(nodes, p) && p != []
    ensures FrontsFirst(p[..|p| - 1], Preorder(nodes, kids, p))
    decreases nodes.Keys - Ids(p), 1, 0
  {
    ForestFrontsFirst(nodes, kids, p, KidsOf(kids, Last(p)));
    FrontsFirstCons(p, Forest(nodes, kids, p, KidsOf(kids, Last(p))));
  }

  lemma FrontsFirstCons(p: seq<Id>, f: seq<seq<Id>>)
    requires p != [] && FrontsFirst(p, f)
    ensures FrontsFirst(p[..|p| - 1], [p] + f)
  {
    var r := [p] + f;
    forall i | 0 <= i < |r|
      ensures r[i] != [] && (r[i][..|r[i]| - 1] == p[..|p| - 1] || r[i][..|r[i]| - 1] in r[..i])
    {
      if i > 0 {
        assert r[i] == f[i - 1] && r[..i] == [p] + f[..i - 1];
      }
    }
  }

  lemma {:induction false} ForestFrontsFirst(nodes: map<Id, Node>, kids: Kids, p: seq<Id>, cs: seq<Id>)
    requires ListsAll(nodes, kids) && Path(nodes, p) && AreChildren(nodes, Last(p), cs)
    ensures FrontsFirst(p, Forest(nodes, kids, p, cs))
    decreases nodes.Keys - Ids(p), 0, |cs|
  {
    if cs != [] {
      PathSnoc(nodes, p, cs[0]);
      PreorderFrontsFirst(nodes, kids, p + [cs[0]]);
      ForestFrontsFirst(nodes, kids, p, cs[1..]);
      assert (p + [cs[0]])[..|p|] == p;
      FrontsFirstConcat(p, Preorder(nodes, kids, p + [cs[0]]), Forest(nodes, kids, p, cs[1..]));
    }
  }

  lemma FrontsFirstConcat(above: seq<Id>, x: seq<seq<Id>>, y: seq<seq<Id>>)
    requires FrontsFirst(above, x) && FrontsFirst(above, y)
    ensures FrontsFirst(above, x + y)
  {
    var r := x + y;
    forall i | 0 <= i < |r|
      ensures r[i] != [] && (r[i][..|r[i]| - 1] == above || r[i][..|r[i]| - 1] in r[..i])
    {
      if i < |x| {
        assert r[..i] == x[..i];
      } else {
        assert r[..i] == x + y[..i - |x|];
      }
    }
  }

  // ----- the active block -----

  /** From position k on, r runs down the path a, one entry at a time, starting at length n. */
  ghost predicate RunsDown(r: seq<seq<Id>>, k: nat, a: seq<Id>, n: nat) {
    n <= |a| && k + |a| - n < |r| && forall j | n <= j <= |a| :: r[k + j - n] == a[..j]
  }

  lemma {:induction false} PreorderRunsDown(nodes: map<Id, Node>, kids: Kids, p: seq<Id>, a: seq<Id>)
    requires "" !in nodes && ListsAll(nodes, kids) && Path(nodes, p) && p != []
    requires Path(nodes, a) && p <= a && AllActiveFirst(Ids(a), kids)
    ensures RunsDown(Preorder(nodes, kids, p), 0, a, |p|)
    decreases |a| - |p|
  {
    assert a[..|p|] == p;
    if p != a {
      var c, cs := a[|p|], KidsOf(kids, Last(p));
      assert Lists(nodes, Last(p), cs);
      OnlyActiveChild(nodes, a, |p|, cs);
      PathSnoc(nodes, p, c);
      assert a[..|p| + 1] == p + [c];
      PreorderRunsDown(nodes, kids, p + [c], a);
      RunsDownCons(p, a, Preorder(nodes, kids, p + [c]), Forest(nodes, kids, p, cs[1..]));
    }
  }

  lemma RunsDownCons(p: seq<Id>, a: seq<Id>, x: seq<seq<Id>>, y: seq<seq<Id>>)
    requires p <= a && RunsDown(x, 0, a, |p| + 1)
    ensures RunsDown([p] + (x + y), 0, a, |p|)
  {
    var r := [p] + (x + y);
    assert a[..|p|] == p;
    forall j | |p| <= j <= |a| ensures r[j - |p|] == a[..j] {
      if j > |p| { assert r[j - |p|] == x[j - |p| - 1]; }
    }
  }

  /** The next entry of the active path sorts in front of its siblings. */
  lemma OnlyActiveChild(nodes: map<Id, Node>, a: seq<Id>, n: nat, cs: seq<Id>)
    requires Path(nodes, a) && 0 < n < |a| && Lists(nodes, a[n - 1], cs) && ActiveFirst(Ids(a), cs)
    ensures cs != [] && cs[0] == a[n]
  {
    WalkDistinct(nodes, Last(a), a);
    assert a[n] in cs;
    var j :| 0 <= j < |cs| && cs[j] == a[n];
    assert cs[0] in Ids(a) by { assert cs[j] in Ids(a); }
    var k :| 0 <= k < |a| && a[k] == cs[0];
    PathParent(nodes, a, k);
    assert cs[0] in cs && Last(a[..k]) == a[n - 1] != "";
    assert forall m | 0 <= m < |a| && a[m] == a[n - 1] :: m == n - 1;
  }

  lemma PathParent(nodes: map<Id, Node>, a: seq<Id>, k: nat)
    requires Path(nodes, a) && k < |a|
    ensures a[k] in nodes && nodes[a[k]].parentId == Last(a[..k])
  {}

  lemma {:induction false} ForestHasBlock(nodes: map<Id, Node>, kids: Kids, roots: seq<Id>, a: seq<Id>)
    requires ListsAll(nodes, kids) && AreChildren(nodes, "", roots)
    requires Path(nodes, a) && a != [] && a[0] in roots && AllActiveFirst(Ids(a), kids)
    ensures exists k: nat :: RunsDown(Forest(nodes, kids, [], roots), k, a, 1)
    decreases |roots|
  {
    PathSnoc(nodes, [], roots[0]);
    var x, y := Preorder(nodes, kids, [roots[0]]), Forest(nodes, kids, [], roots[1..]);
    assert [] + [roots[0]] == [roots[0]];
    var r := Forest(nodes, kids, [], roots);
    assert r == x + y;
    if a[0] == roots[0] {
      PreorderRunsDown(nodes, kids, [roots[0]], a);
      assert RunsDown(r, 0, a, 1);
    } else {
      ForestHasBlock(nodes, kids, roots[1..], a);
      var k: nat :| RunsDown(y, k, a, 1);
      assert RunsDown(r, |x| + k, a, 1);
    }
  }

  // ----- sibling order -----

  function Front(p: seq<Id>): seq<Id> { if p == [] then [] else p[..|p| - 1] }

  /** Two paths with the same front: in `top` order if that front is `above`, in `le` order otherwise. */
  ghost predicate SiblingOrder(above: seq<Id>, top: (Id, Id) -> bool, le: (Id, Id) -> bool, p: seq<Id>, q: seq<Id>) {
    p != [] && q != [] && Front(p) == Front(q) ==>
      if Front(p) == above then top(Last(p), Last(q)) else le(Last(p), Last(q))
  }

  ghost predicate SiblingsOrdered(above: seq<Id>, top: (Id, Id) -> bool, le: (Id, Id) -> bool, r: seq<seq<Id>>) {
    forall i, j | 0 <= i < j < |r| :: SiblingOrder(above, top, le, r[i], r[j])
  }

  ghost predicate AllSorted(kids: Kids, le: (Id, Id) -> bool) {
    forall id {:trigger KidsOf(kids, id)} | id != "" :: Sorted(KidsOf(kids, id), le)
  }

  lemma {:induction false} PreorderOrdered(nodes: map<Id, Node>, kids: Kids, p: seq<Id>, top: (Id, Id) -> bool, le: (Id, Id) -> bool)
    requires "" !in nodes && ListsAll(nodes, kids) && Path(nodes, p) && p != [] && AllSorted(kids, le)
    ensures SiblingsOrdered(Front(p), top, le, Preorder(nodes, kids, p))
    decreases nodes.Keys - Ids(p), 1, 0
  {
    var cs := KidsOf(kids, Last(p));
    assert Lists(nodes, Last(p), cs);
    ForestOrdered(nodes, kids, p, cs, le, le);
    ForestSound(nodes, kids, p, cs);
    var f := Forest(nodes, kids, p, cs);
    var r := [p] + f;
    forall i, j | 0 <= i < j < |r| ensures SiblingOrder(Front(p), top, le, r[i], r[j]) {
      assert f[j - 1] in f;
      if i > 0 {
        assert f[i - 1] in f;
        BelowOrder(p, top, le, f[i - 1], f[j - 1]);
      } else {
        assert |Front(f[j - 1])| >= |p| > |Front(p)|;
      }
    }
  }

  lemma {:induction false} ForestOrdered(nodes: map<Id, Node>, kids: Kids, p: seq<Id>, cs: seq<Id>,
                                         top: (Id, Id) -> bool, le: (Id, Id) -> bool)
    requires ListsAll(nodes, kids) && Path(nodes, p) && AreChildren(nodes, Last(p), cs) && NoDup(cs)
    requires AllSorted(kids, le) && Sorted(cs, top)
    ensures SiblingsOrdered(p, top, le, Forest(nodes, kids, p, cs))
    decreases nodes.Keys - Ids(p), 0, |cs|
  {
    if cs != [] {
      PathSnoc(nodes, p, cs[0]);
      assert Front(p + [cs[0]]) == p;
      PreorderOrdered(nodes, kids, p + [cs[0]], top, le);
      assert Sorted(cs[1..], top) && NoDup(cs[1..]);
      ForestOrdered(nodes, kids, p, cs[1..], top, le);
      PreorderSound(nodes, kids, p + [cs[0]]);
      ForestSound(nodes, kids, p, cs[1..]);
      var x, y := Preorder(nodes, kids, p + [cs[0]]), Forest(nodes, kids, p, cs[1..]);
      forall i, j | 0 <= i < |x| && 0 <= j < |y| ensures SiblingOrder(p, top, le, x[i], y[j]) {
        assert x[i] in x && y[j] in y;
        CrossOrder(p, cs, top, le, x[i], y[j]);
      }
      assert Forest(nodes, kids, p, cs) == x + y;
    }
  }

  lemma BelowOrder(p: seq<Id>, top: (Id, Id) -> bool, le: (Id, Id) -> bool, x: seq<Id>, y: seq<Id>)
    requires p != [] && |x| > |p| && SiblingOrder(p, le, le, x, y)
    ensures SiblingOrder(Front(p), top, le, x, y)
  {
    assert |Front(x)| > |Front(p)|;
  }

  lemma CrossOrder(p: seq<Id>, cs: seq<Id>, top: (Id, Id) -> bool, le: (Id, Id) -> bool, x: seq<Id>, y: seq<Id>)
    requires cs != [] && NoDup(cs) && Sorted(cs, top)
    requires p + [cs[0]] <= x && |p| < |y| && p <= y && y[|p|] in cs[1..]
    ensures SiblingOrder(p, top, le, x, y)
  {
    assert x[|p|] == cs[0];
    assert y[|p|] != cs[0];
    if |x| > |p| + 1 {
      assert Front(x)[|p|] == cs[0];
      if |y| > |p| + 1 { assert Front(y)[|p|] == y[|p|]; }
      assert Front(x) != Front(y);
    }
  }

  // ----- the listing itself -----

  lemma NoEmptyId(nodes: map<Id, Node>)
    requires Acyclic(nodes)
    ensures "" !in nodes
  {
    forall id | id in nodes ensures id != "" {
      assert Traceable(nodes, id);
    }
  }

  function RowOf(s: State, active: set<Id>, kids: Kids, p: seq<Id>): Row
    requires p != [] && Last(p) in s.nodes
  {
    var id, n := Last(p), s.nodes[Last(p)];
    Row(id, n.parentId, n.typ, n.ts, |KidsOf(kids, id)|, id in active, |p| - 1,
        if id in s.labels then s.labels[id] else "", n.tokensBefore)
  }

  function Ts(nodes: map<Id, Node>, id: Id): int { if id in nodes then nodes[id].ts else 0 }

  /** Oldest first. */
  function Older(nodes: map<Id, Node>): (Id, Id) -> bool {
    (x: Id, y: Id) => Ts(nodes, x) <= Ts(nodes, y)
  }

  /** Active subtree first, then oldest first. */
  function ActiveThenOlder(nodes: map<Id, Node>, active: set<Id>): (Id, Id) -> bool {
    (x: Id, y: Id) => if (x in active) != (y in active) then x in active else Ts(nodes, x) <= Ts(nodes, y)
  }

  /** `rows` renders the paths `r` one by one. */
  ghost predicate Renders(s: State, active: set<Id>, kids: Kids, r: seq<seq<Id>>, rows: seq<Row>) {
    && |rows| == |r|
    && forall i | 0 <= i < |r| :: r[i] != [] && Last(r[i]) in s.nodes && rows[i] == RowOf(s, active, kids, r[i])
  }

  lemma RendersConcat(s: State, active: set<Id>, kids: Kids, r1: seq<seq<Id>>, rows1: seq<Row>, r2: seq<seq<Id>>, rows2: seq<Row>)
    requires Renders(s, active, kids, r1, rows1) && Renders(s, active, kids, r2, rows2)
    ensures Renders(s, active, kids, r1 + r2, rows1 + rows2)
  {}

  ghost predicate RowFor(rows: seq<Row>, i: int, id: Id) { 0 <= i < |rows| && rows[i].id == id }

  /** The promise of FullTree, in terms of the tree alone; `a` is the active path. */
  ghost predicate TreeListing(s: State, a: seq<Id>, rows: seq<Row>) {
    && ListsOnce(s.nodes, rows)
    && (forall i | 0 <= i < |rows| :: DescribesEntry(s, a, rows[i]))
    && ParentsFirst(rows)
    && SiblingsInOrder(s.nodes, a, rows)
    && ActiveBlock(s.nodes, a, rows)
  }

  /** Exactly once every entry that leads back to a root; that is every entry if and only if no parent is missing. */
  ghost predicate ListsOnce(nodes: map<Id, Node>, rows: seq<Row>) {
    && (forall i, j | 0 <= i < j < |rows| :: rows[i].id != rows[j].id)
    && (forall id :: (exists i :: RowFor(rows, i, id)) <==> id in nodes && HasWalk(nodes, id))
    && ((forall id | id in nodes :: exists i :: RowFor(rows, i, id)) <==> Grounded(nodes))
  }

  ghost predicate ParentsFirst(rows: seq<Row>) {
    forall i | 0 <= i < |rows| && rows[i].parentId != "" :: exists j :: RowFor(rows, j, rows[i].parentId) && j < i
  }

  /** Roots oldest first; below them the active child first, then oldest first. */
  ghost predicate SiblingsInOrder(nodes: map<Id, Node>, a: seq<Id>, rows: seq<Row>) {
    forall i, j | 0 <= i < j < |rows| && rows[i].parentId == rows[j].parentId ::
      if rows[i].parentId != "" && (rows[i].id in a) != (rows[j].id in a) then rows[i].id in a
      else rows[i].id in nodes && rows[j].id in nodes && nodes[rows[i].id].ts <= nodes[rows[j].id].ts
  }

  /** The active branch is one contiguous block, root to leaf; if its first parent is missing, none of it is listed. */
  ghost predicate ActiveBlock(nodes: map<Id, Node>, a: seq<Id>, rows: seq<Row>) {
    a != [] ==>
      if a[0] in nodes then exists k: nat :: BlockAt(rows, k, a)
      else forall i | 0 <= i < |rows| :: rows[i].id !in a
  }

  /** The row carries its entry's fields, at a depth equal to its number of ancestors. */
  ghost predicate DescribesEntry(s: State, a: seq<Id>, row: Row) {
    && row.id in s.nodes
    && (var n := s.nodes[row.id];
        row.parentId == n.parentId && row.typ == n.typ && row.ts == n.ts && row.tokensBefore == n.tokensBefore)
    && (exists p :: Walk(s.nodes, row.id, p) && |p| == row.depth + 1)
    && row.children == |set c | c in s.nodes && s.nodes[c].parentId == row.id|
    && (row.onActivePath <==> row.id in a)
    && row.tag == (if row.id in s.labels then s.labels[row.id] else "")
  }

  ghost predicate BlockAt(rows: seq<Row>, k: nat, a: seq<Id>) {
    k + |a| <= |rows| && forall j | 0 <= j < |a| :: rows[k + j].id == a[j]
  }

  /** What the sorted children map and root list must satisfy when the search starts. */
  ghost predicate Prepared(s: State, a: seq<Id>, kids: Kids, roots: seq<Id>) {
    && Acyclic(s.nodes) && "" !in s.nodes && ActivePath(s, a)
    && ListsAll(s.nodes, kids) && AllSorted(kids, ActiveThenOlder(s.nodes, Ids(a)))
    && Lists(s.nodes, "", roots) && Sorted(roots, Older(s.nodes))
  }

  lemma SearchListsTree(s: State, a: seq<Id>, kids: Kids, roots: seq<Id>, rows: seq<Row>)
    requires Prepared(s, a, kids, roots)
    requires Renders(s, Ids(a), kids, Forest(s.nodes, kids, [], roots), rows)
    ensures TreeListing(s, a, rows)
  {
    RowsOnce(s, a, kids, roots, rows);
    RowsDescribe(s, a, kids, roots, rows);
    RowsParentFirst(s, a, kids, roots, rows);
    RowsSiblings(s, a, kids, roots, rows);
    RowsActive(s, a, kids, roots, rows);
  }

  /** Entry id has a row, with the fields of n. */
  ghost predicate Listed(rows: seq<Row>, id: Id, n: Node) {
    exists i {:trigger RowFor(rows, i, id)} ::
      RowFor(rows, i, id) && rows[i].parentId == n.parentId && rows[i].typ == n.typ && rows[i].ts == n.ts
  }

  /**
   A session that started well formed and used fresh ids can be listed at any time, and the listing leaves nothing out:
   every entry has its row, those from before the run with their old parent, type and time.
   */
  lemma RunIsListedWhole(s: State, steps: seq<Step>)
    requires WellFormed(s) && FreshIds(s, steps)
    ensures var t := Run(s, steps); Acyclic(t.nodes) && (t.leaf != "" ==> t.leaf in t.nodes)
    ensures forall a, rows, id | TreeListing(Run(s, steps), a, rows) && id in Run(s, steps).nodes ::
              Listed(rows, id, if id in s.nodes then s.nodes[id] else Run(s, steps).nodes[id])
  {
    var t := Run(s, steps);
    RunKeepsWellFormed(s, steps);
    GroundedIsAcyclic(t.nodes);
    forall a, rows, id | TreeListing(t, a, rows) && id in t.nodes
      ensures Listed(rows, id, if id in s.nodes then s.nodes[id] else t.nodes[id])
    {
      assert HasWalk(t.nodes, id);
      var i :| RowFor(rows, i, id);
      assert DescribesEntry(t, a, rows[i]);
    }
  }

  lemma RowsActive(s: State, a: seq<Id>, kids: Kids, roots: seq<Id>, rows: seq<Row>)
    requires Prepared(s, a, kids, roots)
    requires Renders(s, Ids(a), kids, Forest(s.nodes, kids, [], roots), rows)
    ensures ActiveBlock(s.nodes, a, rows)
  {
    if a != [] {
      if a[0] in s.nodes {
        RowsBlock(s, a, kids, roots, rows);
      } else {
        RowsSound(s, a, kids, roots, rows);
        RowsWithoutActive(s, a, rows);
      }
    }
  }

  lemma RowsDescribe(s: State, a: seq<Id>, kids: Kids, roots: seq<Id>, rows: seq<Row>)
    requires Prepared(s, a, kids, roots)
    requires Renders(s, Ids(a), kids, Forest(s.nodes, kids, [], roots), rows)
    ensures forall i | 0 <= i < |rows| :: DescribesEntry(s, a, rows[i])
  {
    var r := Forest(s.nodes, kids, [], roots);
    ForestSound(s.nodes, kids, [], roots);
    forall i | 0 <= i < |rows| ensures DescribesEntry(s, a, rows[i]) {
      assert r[i] in r;
      RowDescribes(s, a, kids, r[i]);
    }
  }

  lemma RowsWithoutActive(s: State, a: seq<Id>, rows: seq<Row>)
    requires ActivePath(s, a) && a != [] && a[0] !in s.nodes
    requires forall i | 0 <= i < |rows| :: HasWalk(s.nodes, rows[i].id)
    ensures forall i | 0 <= i < |rows| :: rows[i].id !in a
  {
    forall i | 0 <= i < |rows| ensures rows[i].id !in a {
      if rows[i].id in a {
        var k :| 0 <= k < |a| && a[k] == rows[i].id;
        var p :| Walk(s.nodes, rows[i].id, p) && p[0] in s.nodes;
        WalkPrefix(s.nodes, s.leaf, a, k);
        WalkUnique(s.nodes, a[k], p, a[..k + 1]);
        assert false;
      }
    }
  }

  lemma RowDescribes(s: State, a: seq<Id>, kids: Kids, p: seq<Id>)
    requires ListsAll(s.nodes, kids) && "" !in s.nodes && Path(s.nodes, p) && p != [] && Last(p) in s.nodes
    ensures DescribesEntry(s, a, RowOf(s, Ids(a), kids, p))
  {
    var id := Last(p);
    var cs := KidsOf(kids, id);
    assert Lists(s.nodes, id, cs);
    NoDupCard(cs);
    assert (set c | c in cs) == set c | c in s.nodes && s.nodes[c].parentId == id;
  }

  lemma {:induction false} NoDupCard(cs: seq<Id>)
    requires NoDup(cs)
    ensures |set c | c in cs| == |cs|
  {
    if cs != [] {
      var n := |cs| - 1;
      NoDupCard(cs[..n]);
      assert (set c | c in cs) == (set c | c in cs[..n]) + {cs[n]};
    }
  }

  lemma RowsOnce(s: State, a: seq<Id>, kids: Kids, roots: seq<Id>, rows: seq<Row>)
    requires Prepared(s, a, kids, roots)
    requires Renders(s, Ids(a), kids, Forest(s.nodes, kids, [], roots), rows)
    ensures ListsOnce(s.nodes, rows)
  {
    RowsDistinct(s, a, kids, roots, rows);
    RowsSound(s, a, kids, roots, rows);
    forall id | id in s.nodes && HasWalk(s.nodes, id) ensures exists i :: RowFor(rows, i, id) {
      RowsComplete(s, a, kids, roots, rows, id);
    }
    CompleteIffGrounded(s.nodes, rows);
  }

  lemma CompleteIffGrounded(nodes: map<Id, Node>, rows: seq<Row>)
    requires forall id :: (exists i :: RowFor(rows, i, id)) <==> id in nodes && HasWalk(nodes, id)
    ensures (forall id | id in nodes :: exists i :: RowFor(rows, i, id)) <==> Grounded(nodes)
  {}

  lemma RowsSound(s: State, a: seq<Id>, kids: Kids, roots: seq<Id>, rows: seq<Row>)
    requires Prepared(s, a, kids, roots)
    requires Renders(s, Ids(a), kids, Forest(s.nodes, kids, [], roots), rows)
    ensures forall i | 0 <= i < |rows| :: rows[i].id in s.nodes && HasWalk(s.nodes, rows[i].id)
  {
    var r := Forest(s.nodes, kids, [], roots);
    ForestSound(s.nodes, kids, [], roots);
    forall i | 0 <= i < |rows| ensures rows[i].id in s.nodes && HasWalk(s.nodes, rows[i].id) {
      assert r[i] in r && Walk(s.nodes, rows[i].id, r[i]);
    }
  }

  lemma RowsDistinct(s: State, a: seq<Id>, kids: Kids, roots: seq<Id>, rows: seq<Row>)
    requires Prepared(s, a, kids, roots)
    requires Renders(s, Ids(a), kids, Forest(s.nodes, kids, [], roots), rows)
    ensures forall i, j | 0 <= i < j < |rows| :: rows[i].id != rows[j].id
  {
    var r := Forest(s.nodes, kids, [], roots);
    ForestSound(s.nodes, kids, [], roots);
    ForestNoDup(s.nodes, kids, [], roots);
    forall i, j | 0 <= i < j < |rows| ensures rows[i].id != rows[j].id {
      assert r[i] in r && r[j] in r;
      if Last(r[i]) == Last(r[j]) { WalkUnique(s.nodes, Last(r[i]), r[i], r[j]); }
    }
  }

  lemma RowsComplete(s: State, a: seq<Id>, kids: Kids, roots: seq<Id>, rows: seq<Row>, id: Id)
    requires Prepared(s, a, kids, roots) && id in s.nodes && HasWalk(s.nodes, id)
    requires Renders(s, Ids(a), kids, Forest(s.nodes, kids, [], roots), rows)
    ensures exists i :: RowFor(rows, i, id)
  {
    var r := Forest(s.nodes, kids, [], roots);
    var p :| Walk(s.nodes, id, p) && p[0] in s.nodes;
    ForestComplete(s.nodes, kids, [], roots, p);
    var i := RowOfPath(s, Ids(a), kids, r, rows, p);
    assert RowFor(rows, i, id);
  }

  lemma RowOfPath(s: State, active: set<Id>, kids: Kids, r: seq<seq<Id>>, rows: seq<Row>, p: seq<Id>) returns (i: nat)
    requires Renders(s, active, kids, r, rows) && p in r && p != []
    ensures i < |rows| && rows[i].id == Last(p)
  {
    i :| 0 <= i < |r| && r[i] == p;
  }

  lemma RowsParentFirst(s: State, a: seq<Id>, kids: Kids, roots: seq<Id>, rows: seq<Row>)
    requires Prepared(s, a, kids, roots)
    requires Renders(s, Ids(a), kids, Forest(s.nodes, kids, [], roots), rows)
    ensures ParentsFirst(rows)
  {
    var r := Forest(s.nodes, kids, [], roots);
    ForestSound(s.nodes, kids, [], roots);
    ForestFrontsFirst(s.nodes, kids, [], roots);
    forall i | 0 <= i < |rows| && rows[i].parentId != ""
      ensures exists j :: RowFor(rows, j, rows[i].parentId) && j < i
    {
      assert r[i] in r;
      RowParentFirst(s, Ids(a), kids, r, rows, i);
    }
  }

  lemma RowParentFirst(s: State, active: set<Id>, kids: Kids, r: seq<seq<Id>>, rows: seq<Row>, i: nat)
    requires Renders(s, active, kids, r, rows) && FrontsFirst([], r)
    requires i < |rows| && rows[i].parentId != "" && Path(s.nodes, r[i])
    ensures exists j :: RowFor(rows, j, rows[i].parentId) && j < i
  {
    FrontIsParent(s.nodes, r, i);
    var j :| 0 <= j < i && r[j] == r[i][..|r[i]| - 1];
    assert rows[j] == RowOf(s, active, kids, r[j]);
    assert RowFor(rows, j, rows[i].parentId);
  }

  lemma FrontIsParent(nodes: map<Id, Node>, r: seq<seq<Id>>, i: nat)
    requires i < |r| && FrontsFirst([], r) && Path(nodes, r[i]) && Last(r[i]) in nodes
    requires nodes[Last(r[i])].parentId != ""
    ensures nodes[Last(r[i])].parentId == Last(r[i][..|r[i]| - 1])
    ensures exists j :: 0 <= j < i && r[j] == r[i][..|r[i]| - 1]
  {
    PathParent(nodes, r[i], |r[i]| - 1);
    assert r[i][..|r[i]| - 1] in r[..i];
  }

  lemma RowsSiblings(s: State, a: seq<Id>, kids: Kids, roots: seq<Id>, rows: seq<Row>)
    requires Prepared(s, a, kids, roots)
    requires Renders(s, Ids(a), kids, Forest(s.nodes, kids, [], roots), rows)
    ensures SiblingsInOrder(s.nodes, a, rows)
  {
    var r := Forest(s.nodes, kids, [], roots);
    var top, le := Older(s.nodes), ActiveThenOlder(s.nodes, Ids(a));
    ForestSound(s.nodes, kids, [], roots);
    ForestOrdered(s.nodes, kids, [], roots, top, le);
    forall i, j | 0 <= i < j < |rows| && rows[i].parentId == rows[j].parentId
      ensures if rows[i].parentId == "" then top(rows[i].id, rows[j].id) else le(rows[i].id, rows[j].id)
    {
      assert r[i] in r && r[j] in r && SiblingOrder([], top, le, r[i], r[j]);
      SameParentSameFront(s.nodes, r[i], r[j]);
    }
  }

  lemma SameParentSameFront(nodes: map<Id, Node>, p: seq<Id>, q: seq<Id>)
    requires Path(nodes, p) && Path(nodes, q) && p != [] && q != []
    requires Last(p) in nodes && Last(q) in nodes && nodes[Last(p)].parentId == nodes[Last(q)].parentId
    ensures Front(p) == Front(q) && (Front(p) == [] <==> nodes[Last(p)].parentId == "")
  {
    PathParent(nodes, p, |p| - 1);
    PathParent(nodes, q, |q| - 1);
    if Front(p) != [] { WalkPrefix(nodes, Last(p), p, |p| - 2); }
    if Front(q) != [] { WalkPrefix(nodes, Last(q), q, |q| - 2); }
    if Front(p) != [] && Front(q) != [] { WalkUnique(nodes, Last(Front(p)), Front(p), Front(q)); }
  }

  lemma RowsBlock(s: State, a: seq<Id>, kids: Kids, roots: seq<Id>, rows: seq<Row>)
    requires Prepared(s, a, kids, roots) && a != [] && a[0] in s.nodes
    requires Renders(s, Ids(a), kids, Forest(s.nodes, kids, [], roots), rows)
    ensures exists k: nat :: BlockAt(rows, k, a)
  {
    var r := Forest(s.nodes, kids, [], roots);
    PathParent(s.nodes, a, 0);
    forall id {:trigger KidsOf(kids, id)} | id != "" ensures ActiveFirst(Ids(a), KidsOf(kids, id)) {
      assert Sorted(KidsOf(kids, id), ActiveThenOlder(s.nodes, Ids(a)));
    }
    ForestHasBlock(s.nodes, kids, roots, a);
    var k: nat :| RunsDown(r, k, a, 1);
    forall j | 0 <= j < |a| ensures rows[k + j].id == a[j] {
      assert r[k + (j + 1) - 1] == a[..j + 1];
    }
    assert BlockAt(rows, k, a);
  }
}
