/** The tree a session denotes: root-to-leaf walks, the messages along them, and what later operations leave alone. */
module SessionTree {
  import opened SessionModel

  /**
   `p` lists the ids from a root down to `leaf`, each the parent of the next.
   The first one is a root, or an id the file refers to without defining.
   */
  ghost predicate Walk(nodes: map<Id, Node>, leaf: Id, p: seq<Id>) {
    && p != [] && p[|p| - 1] == leaf
    && (forall i | 0 <= i < |p| :: p[i] != "")
    && (p[0] in nodes ==> nodes[p[0]].parentId == "")
    && (forall i | 1 <= i < |p| :: p[i] in nodes && nodes[p[i]].parentId == p[i - 1])
  }

  ghost predicate HasWalk(nodes: map<Id, Node>, leaf: Id) {
    exists p :: Walk(nodes, leaf, p) && p[0] in nodes
  }

  /** Every entry can be traced back to a root that exists. */
  ghost predicate Grounded(nodes: map<Id, Node>) {
    forall id {:trigger HasWalk(nodes, id)} | id in nodes :: HasWalk(nodes, id)
  }

  /** Every entry can be traced back, to a root or to a parent that is missing. */
  ghost predicate Acyclic(nodes: map<Id, Node>) {
    forall id {:trigger Traceable(nodes, id)} | id in nodes :: Traceable(nodes, id)
  }

  ghost predicate Traceable(nodes: map<Id, Node>, id: Id) {
    exists p :: Walk(nodes, id, p)
  }

  /** A walk is a single step exactly when its leaf has no parent. */
  lemma WalkOfRoot(nodes: map<Id, Node>, leaf: Id, p: seq<Id>)
    requires Walk(nodes, leaf, p)
    ensures |p| == 1 <==> (leaf in nodes ==> nodes[leaf].parentId == "")
  {
    if |p| > 1 { assert p[|p| - 1] in nodes && nodes[leaf].parentId == p[|p| - 2]; }
  }

  lemma {:induction false} WalkUnique(nodes: map<Id, Node>, leaf: Id, p: seq<Id>, q: seq<Id>)
    requires Walk(nodes, leaf, p) && Walk(nodes, leaf, q)
    ensures p == q
    decreases |p|
  {
    WalkOfRoot(nodes, leaf, p);
    WalkOfRoot(nodes, leaf, q);
    if |p| > 1 {
      WalkUnique(nodes, p[|p| - 2], p[..|p| - 1], q[..|q| - 1]);
      assert p == p[..|p| - 1] + [leaf] && q == q[..|q| - 1] + [leaf];
    }
  }

  lemma WalkPrefix(nodes: map<Id, Node>, leaf: Id, p: seq<Id>, k: nat)
    requires Walk(nodes, leaf, p) && k < |p|
    ensures Walk(nodes, p[k], p[..k + 1])
  {}

  lemma WalkDistinct(nodes: map<Id, Node>, leaf: Id, p: seq<Id>)
    requires Walk(nodes, leaf, p)
    ensures forall i, j | 0 <= i < j < |p| :: p[i] != p[j]
  {
    forall i, j | 0 <= i < j < |p| ensures p[i] != p[j] {
      if p[i] == p[j] {
        WalkPrefix(nodes, leaf, p, i);
        WalkPrefix(nodes, leaf, p, j);
        WalkUnique(nodes, p[i], p[..i + 1], p[..j + 1]);
        assert false;
      }
    }
  }

  // ----- the messages along a walk -----

  function AddNode(msgs: seq<Message>, n: Node): seq<Message> {
    if n.compact.Some? then n.compact.value
    else if n.message.Some? then msgs + [n.message.value]
    else msgs
  }

  function Fold(nodes: map<Id, Node>, p: seq<Id>): seq<Message> {
    if p == [] then []
    else
      var msgs := Fold(nodes, p[..|p| - 1]);
      var id := p[|p| - 1];
      if id in nodes then AddNode(msgs, nodes[id]) else msgs
  }

  /** The active branch of a session: nothing before the first entry, else the walk to the leaf. */
  ghost predicate ActivePath(s: State, p: seq<Id>) {
    if s.leaf == "" then p == [] else Walk(s.nodes, s.leaf, p)
  }

  /** `msgs` is what Messages() answers in state s. */
  ghost predicate Shows(s: State, msgs: seq<Message>) {
    exists p :: ActivePath(s, p) && msgs == Fold(s.nodes, p)
  }

  lemma ShowsUnique(s: State, m1: seq<Message>, m2: seq<Message>)
    requires Shows(s, m1) && Shows(s, m2)
    ensures m1 == m2
  {
    var p :| ActivePath(s, p) && m1 == Fold(s.nodes, p);
    var q :| ActivePath(s, q) && m2 == Fold(s.nodes, q);
    if s.leaf != "" { WalkUnique(s.nodes, s.leaf, p, q); }
  }

  // ----- frame: entries off a walk do not affect it -----

  lemma WalkFrame(nodes: map<Id, Node>, leaf: Id, p: seq<Id>, id: Id, n: Node)
    requires Walk(nodes, leaf, p) && id !in p
    ensures Walk(nodes[id := n], leaf, p)
  {
    assert forall i | 0 <= i < |p| :: p[i] != id;
  }

  lemma WalkSnoc(nodes: map<Id, Node>, parent: Id, p: seq<Id>, id: Id, n: Node)
    requires Walk(nodes, parent, p) && id !in p && id != "" && n.parentId == parent
    ensures Walk(nodes[id := n], id, p + [id])
  {
    WalkFrame(nodes, parent, p, id, n);
  }

  lemma {:induction false} FoldFrame(nodes: map<Id, Node>, p: seq<Id>, id: Id, n: Node)
    requires id !in p
    ensures Fold(nodes[id := n], p) == Fold(nodes, p)
  {
    if p != [] {
      assert p[|p| - 1] != id;
      FoldFrame(nodes, p[..|p| - 1], id, n);
    }
  }

  lemma FoldSnoc(nodes: map<Id, Node>, p: seq<Id>, id: Id)
    ensures Fold(nodes, p + [id]) == if id in nodes then AddNode(Fold(nodes, p), nodes[id]) else Fold(nodes, p)
  {
    assert (p + [id])[..|p|] == p;
  }

  // ----- termination of the leaf-to-root walk -----

  /**
   After committing `id` under the leaf, the walk from the new leaf ends if and
   only if `id` is not one of the leaf's own ancestors. Drawing an unused id suffices.
   */
  lemma CommitWalksIff(nodes: map<Id, Node>, leaf: Id, p: seq<Id>, id: Id, n: Node)
    requires Walk(nodes, leaf, p) && id != "" && n.parentId == leaf
    ensures var after := nodes[id := n]; (exists q :: Walk(after, id, q)) <==> id !in p
  {
    var after := nodes[id := n];
    if id !in p {
      WalkSnoc(nodes, leaf, p, id, n);
    } else {
      var k :| 0 <= k < |p| && p[k] == id && forall j | k < j < |p| :: p[j] != id by { LastIndex(p, id); }
      if q :| Walk(after, id, q) {
        NoWalkOnCycle(nodes, leaf, p, k, n, q);
        assert false;
      }
    }
  }

  lemma {:induction false} LastIndex(p: seq<Id>, id: Id)
    requires id in p
    ensures exists k :: 0 <= k < |p| && p[k] == id && forall j | k < j < |p| :: p[j] != id
  {
    var n := |p| - 1;
    if p[n] != id {
      LastIndex(p[..n], id);
      var k :| 0 <= k < n && p[..n][k] == id && forall j | k < j < n :: p[..n][j] != id;
      assert p[k] == id && forall j | k < j < |p| :: p[j] != id;
    }
  }

  /** Going back from p[k] round the cycle p[k], ..., leaf reaches p[k] again after |p| - k steps, so no walk ends there. */
  lemma {:induction false} NoWalkOnCycle(nodes: map<Id, Node>, leaf: Id, p: seq<Id>, k: nat, n: Node, q: seq<Id>)
    requires Walk(nodes, leaf, p) && k < |p| && n.parentId == leaf
    requires forall j | k < j < |p| :: p[j] != p[k]
    requires Walk(nodes[p[k] := n], p[k], q)
    ensures false
    decreases |q|
  {
    var after := nodes[p[k] := n];
    var m := |p| - k;
    var i := 0;
    assert q[0] in after ==> after[q[0]].parentId == "";
    while i < m - 1
      invariant 0 <= i <= m - 1 && |q| > i + 1
      invariant q[|q| - 2 - i] == p[|p| - 1 - i]
    {
      var at := |q| - 2 - i;
      assert after[q[at]].parentId == p[|p| - 2 - i] != "";
      if at == 0 { assert false; }
      i := i + 1;
    }
    WalkPrefix(after, p[k], q, |q| - 1 - m);
    NoWalkOnCycle(nodes, leaf, p, k, n, q[..|q| - m]);
  }

  // ----- runs keep the tree grounded -----

  ghost predicate WellFormed(s: State) {
    && Grounded(s.nodes)
    && (s.leaf == "" || s.leaf in s.nodes)
  }

  lemma GroundedWalkIsClosed(nodes: map<Id, Node>, leaf: Id, p: seq<Id>)
    requires Grounded(nodes) && leaf in nodes && Walk(nodes, leaf, p)
    ensures forall i | 0 <= i < |p| :: p[i] in nodes
  {
    assert HasWalk(nodes, leaf);
    var q :| Walk(nodes, leaf, q) && q[0] in nodes;
    WalkUnique(nodes, leaf, p, q);
  }

  lemma GroundedSnoc(nodes: map<Id, Node>, id: Id, n: Node)
    requires Grounded(nodes) && id != "" && id !in nodes
    requires n.parentId == "" || n.parentId in nodes
    ensures Grounded(nodes[id := n])
  {
    var after := nodes[id := n];
    forall x | x in after ensures HasWalk(after, x) {
      if x == id {
        if n.parentId == "" {
          assert Walk(after, id, [id]);
        } else {
          assert HasWalk(nodes, n.parentId);
          var p :| Walk(nodes, n.parentId, p) && p[0] in nodes;
          GroundedWalkIsClosed(nodes, n.parentId, p);
          WalkSnoc(nodes, n.parentId, p, id, n);
          assert (p + [id])[0] in after;
        }
      } else {
        assert HasWalk(nodes, x);
        var p :| Walk(nodes, x, p) && p[0] in nodes;
        GroundedWalkIsClosed(nodes, x, p);
        WalkFrame(nodes, x, p, id, n);
      }
    }
  }

  lemma GroundedIsAcyclic(nodes: map<Id, Node>)
    requires Grounded(nodes)
    ensures Acyclic(nodes)
  {
    forall id | id in nodes ensures Traceable(nodes, id) {
      assert HasWalk(nodes, id);
      var p :| Walk(nodes, id, p) && p[0] in nodes;
    }
  }

  /** A new entry that nobody refers to yet closes no cycle. */
  lemma AcyclicSnoc(nodes: map<Id, Node>, id: Id, n: Node)
    requires Acyclic(nodes) && id != "" && id !in nodes && n.parentId != id
    requires forall x | x in nodes :: nodes[x].parentId != id
    ensures Acyclic(nodes[id := n])
  {
    var after := nodes[id := n];
    forall x | x in after ensures Traceable(after, x) {
      if x != id {
        assert Traceable(nodes, x);
        var p :| Walk(nodes, x, p);
        NotOnWalk(nodes, x, p, id);
        WalkFrame(nodes, x, p, id, n);
      } else if n.parentId == "" {
        assert Walk(after, id, [id]);
      } else if n.parentId in nodes {
        assert Traceable(nodes, n.parentId);
        var p :| Walk(nodes, n.parentId, p);
        NotOnWalk(nodes, n.parentId, p, id);
        WalkSnoc(nodes, n.parentId, p, id, n);
      } else {
        assert Walk(after, id, [n.parentId, id]);
      }
    }
  }

  lemma NotOnWalk(nodes: map<Id, Node>, x: Id, p: seq<Id>, id: Id)
    requires Walk(nodes, x, p) && x in nodes && id !in nodes && forall y | y in nodes :: nodes[y].parentId != id
    ensures id !in p
  {
    forall i | 0 <= i < |p| ensures p[i] != id {
      if i < |p| - 1 { assert p[i + 1] in nodes && nodes[p[i + 1]].parentId == p[i]; }
    }
  }

  /** Every operation with a fresh id keeps the tree well formed, so the leaf-to-root walk always ends. */
  lemma LiveKeepsWellFormed(s: State, op: Op, w: World)
    requires WellFormed(s) && w.id != "" && w.id !in s.nodes
    ensures WellFormed(Live(s, op, w))
    ensures forall id | id in s.nodes :: id in Live(s, op, w).nodes && Live(s, op, w).nodes[id] == s.nodes[id]
  {
    if !IsMetaOp(op) && !Rejected(s, op) && w.ok {
      GroundedSnoc(s.nodes, w.id, LiveNode(s, op, w));
    }
  }

  lemma GroundedParent(nodes: map<Id, Node>, id: Id)
    requires Grounded(nodes) && id in nodes
    ensures nodes[id].parentId == "" || nodes[id].parentId in nodes
  {
    assert HasWalk(nodes, id);
    var p :| Walk(nodes, id, p) && p[0] in nodes;
    GroundedWalkIsClosed(nodes, id, p);
    if |p| > 1 { assert p[|p| - 1] == id && p[|p| - 2] in nodes; }
  }

  /** The leaf never has children, and the entry just committed is the new leaf. */
  ghost predicate LeafIsChildless(s: State) {
    s.leaf != "" ==> forall x | x in s.nodes :: s.nodes[x].parentId != s.leaf
  }

  /** Whatever the operation, the leaf afterwards is childless: it is the newest entry or what it was before. */
  lemma LiveKeepsLeafChildless(s: State, op: Op, w: World)
    requires WellFormed(s) && LeafIsChildless(s) && w.id != "" && w.id !in s.nodes
    ensures LeafIsChildless(Live(s, op, w))
    ensures !IsMetaOp(op) && !Rejected(s, op) && w.ok ==> Live(s, op, w).leaf == w.id
  {
    forall x | x in s.nodes ensures s.nodes[x].parentId == "" || s.nodes[x].parentId in s.nodes { GroundedParent(s.nodes, x); }
  }

  /** Over a whole run of fresh ids: the tree stays well formed and no existing entry is ever altered. */
  lemma {:induction false} RunKeepsWellFormed(s: State, steps: seq<Step>)
    requires WellFormed(s) && FreshIds(s, steps)
    ensures WellFormed(Run(s, steps))
    ensures forall id | id in s.nodes :: id in Run(s, steps).nodes && Run(s, steps).nodes[id] == s.nodes[id]
    ensures forall i | 0 <= i < |steps| :: steps[i].w.id !in s.nodes
  {
    if steps != [] {
      var n := |steps| - 1;
      RunKeepsWellFormed(s, steps[..n]);
      LiveKeepsWellFormed(Run(s, steps[..n]), steps[n].op, steps[n].w);
      forall i | 0 <= i < |steps| ensures steps[i].w.id !in s.nodes {
        if i < n { assert steps[..n][i].w.id !in s.nodes; }
      }
    }
  }

  // ----- time travel -----

  /** No id generated during the run belongs to the walk p. */
  predicate Avoids(steps: seq<Step>, p: seq<Id>) {
    forall i | 0 <= i < |steps| :: steps[i].w.id !in p
  }

  lemma {:induction false} RunFramesWalk(s: State, steps: seq<Step>, e: Id, p: seq<Id>)
    requires Walk(s.nodes, e, p) && Avoids(steps, p)
    ensures Walk(Run(s, steps).nodes, e, p)
    ensures Fold(Run(s, steps).nodes, p) == Fold(s.nodes, p)
    ensures forall x | x in p :: x in Run(s, steps).nodes <==> x in s.nodes
  {
    if steps != [] {
      var n := |steps| - 1;
      RunFramesWalk(s, steps[..n], e, p);
      var mid, last := Run(s, steps[..n]), steps[n];
      assert last.w.id !in p;
      if !IsMetaOp(last.op) && !Rejected(mid, last.op) && last.w.ok {
        WalkFrame(mid.nodes, e, p, last.w.id, LiveNode(mid, last.op, last.w));
        FoldFrame(mid.nodes, p, last.w.id, LiveNode(mid, last.op, last.w));
      }
    }
  }

  /**
   If entry e was the leaf and Messages() was `msgs`, then after any later run,
   branching to e makes Messages() equal `msgs` again.
   */
  lemma TimeTravel(s: State, msgs: seq<Message>, p: seq<Id>, steps: seq<Step>, summary: string, w: World)
    requires s.leaf in s.nodes && ActivePath(s, p) && Shows(s, msgs) && s.leaf != ""
    requires Avoids(steps, p) && w.id !in p && w.id != "" && w.ok
    ensures var op := Branch(s.leaf, summary);
            !Rejected(Run(s, steps), op) && Shows(Live(Run(s, steps), op, w), msgs)
  {
    var e, now := s.leaf, Run(s, steps);
    ShowsUnique(s, msgs, Fold(s.nodes, p));
    RunFramesWalk(s, steps, e, p);
    var op := Branch(e, summary);
    var n := LiveNode(now, op, w);
    var after := Live(now, op, w);
    WalkSnoc(now.nodes, e, p, w.id, n);
    FoldFrame(now.nodes, p, w.id, n);
    FoldSnoc(after.nodes, p, w.id);
    assert ActivePath(after, p + [w.id]);
  }

  /** With fresh ids throughout, every past leaf of a well-formed session can be travelled back to. */
  lemma TimeTravelFresh(s: State, msgs: seq<Message>, steps: seq<Step>, summary: string, w: World)
    requires WellFormed(s) && s.leaf != "" && Shows(s, msgs)
    requires FreshIds(s, steps) && FreshId(Run(s, steps), w.id) && w.ok
    ensures var op := Branch(s.leaf, summary);
            !Rejected(Run(s, steps), op) && Shows(Live(Run(s, steps), op, w), msgs)
  {
    var p :| ActivePath(s, p) && msgs == Fold(s.nodes, p);
    GroundedWalkIsClosed(s.nodes, s.leaf, p);
    RunKeepsWellFormed(s, steps);
    TimeTravel(s, msgs, p, steps, summary, w);
  }

  /** What each operation does to Messages(), given the walk to the current leaf and an unused id. */
  lemma LiveShows(s: State, op: Op, w: World, msgs: seq<Message>)
    requires WellFormed(s) && Shows(s, msgs) && w.id != "" && w.id !in s.nodes && w.ok
    ensures op.Append? ==> Shows(Live(s, op, w), msgs + [op.msg])
    ensures op.AppendCustomMessage? && op.role == "assistant" ==> Shows(Live(s, op, w), msgs + [AssistantMessage(op.content)])
    ensures op.AppendCustomMessage? && op.role != "assistant" ==> Shows(Live(s, op, w), msgs + [UserMessage(op.content, w.now)])
    ensures op.AppendCompact? ==> Shows(Live(s, op, w), op.msgs)
    ensures op.ResetLeaf? ==> Shows(Live(s, op, w), [])
    ensures op.AppendCustom? || op.AppendLabel? || IsMetaOp(op) ==> Shows(Live(s, op, w), msgs)
  {
    var p :| ActivePath(s, p) && msgs == Fold(s.nodes, p);
    if IsMetaOp(op) {
      assert ActivePath(Live(s, op, w), p);
    } else if op.ResetLeaf? {
      CommitShows(s, [], w.id, LiveNode(s, op, w), Live(s, op, w));
    } else if !op.Branch? && !Rejected(s, op) {
      if s.leaf != "" { GroundedWalkIsClosed(s.nodes, s.leaf, p); }
      CommitShows(s, p, w.id, LiveNode(s, op, w), Live(s, op, w));
    }
  }

  /** An entry committed at the end of the walk p extends what is shown by itself. */
  lemma CommitShows(s: State, p: seq<Id>, id: Id, n: Node, after: State)
    requires (if n.parentId == "" then p == [] else Walk(s.nodes, n.parentId, p)) && id != "" && id !in p
    requires after.nodes == s.nodes[id := n] && after.leaf == id
    ensures Shows(after, AddNode(Fold(s.nodes, p), n))
  {
    if n.parentId == "" {
      assert Walk(after.nodes, id, [] + [id]);
    } else {
      WalkSnoc(s.nodes, n.parentId, p, id, n);
    }
    FoldFrame(s.nodes, p, id, n);
    FoldSnoc(after.nodes, p, id);
    assert ActivePath(after, p + [id]);
  }
}
