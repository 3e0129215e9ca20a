/** A session file that has lost lines: what can still be read opens into a tree without cycles. */
module SessionDamage {
  import opened SessionModel
  import opened SessionTree
  import opened Subsequences

  predicate IsMeta(e: Entry) { e.typ == TYPE_META }

  /** The entry's id is new: no earlier entry has it, and none names it as its parent. */
  ghost predicate Follows(log: seq<Entry>, e: Entry) {
    IsMeta(e) || (e.id != "" && e.parentId != e.id && forall x | x in log && !IsMeta(x) :: x.id != e.id && x.parentId != e.id)
  }

  ghost predicate Ordered(log: seq<Entry>) {
    log == [] || (Ordered(log[..|log| - 1]) && Follows(log[..|log| - 1], log[|log| - 1]))
  }

  lemma {:induction false} PartIsOrdered(xs: seq<Entry>, log: seq<Entry>)
    requires Subseq(xs, log) && Ordered(log)
    ensures Ordered(xs)
    decreases |log|
  {
    if xs != [] {
      var fx, fl := xs[..|xs| - 1], log[..|log| - 1];
      if xs[|xs| - 1] == log[|log| - 1] && Subseq(fx, fl) {
        PartIsOrdered(fx, fl);
        SubseqIn(fx, fl);
      } else {
        PartIsOrdered(xs, fl);
      }
    }
  }

  /** The entries of the tree are those of the log, and they form no cycle. */
  lemma {:induction false} OrderedIsAcyclic(log: seq<Entry>)
    requires Ordered(log)
    ensures Acyclic(Replay(log).nodes) && (Replay(log).leaf != "" ==> Replay(log).leaf in Replay(log).nodes)
    ensures forall id | id in Replay(log).nodes ::
              exists x :: x in log && !IsMeta(x) && x.id == id && Replay(log).nodes[id].parentId == x.parentId
  {
    if log != [] {
      var front, e := log[..|log| - 1], log[|log| - 1];
      OrderedIsAcyclic(front);
      var before := Replay(front);
      assert log == front + [e];
      if !IsMeta(e) {
        forall x | x in before.nodes ensures before.nodes[x].parentId != e.id && x != e.id {
          var y :| y in front && !IsMeta(y) && y.id == x && before.nodes[x].parentId == y.parentId;
        }
        AcyclicSnoc(before.nodes, e.id, NodeOf(e));
        forall id | id in Replay(log).nodes
          ensures exists x :: x in log && !IsMeta(x) && x.id == id && Replay(log).nodes[id].parentId == x.parentId
        {
          if id != e.id {
            var y :| y in front && !IsMeta(y) && y.id == id && before.nodes[id].parentId == y.parentId;
            assert y in log;
          }
        }
      } else {
        forall id | id in before.nodes
          ensures exists x :: x in log && !IsMeta(x) && x.id == id && before.nodes[id].parentId == x.parentId
        {
          var y :| y in front && !IsMeta(y) && y.id == id && before.nodes[id].parentId == y.parentId;
          assert y in log;
        }
      }
    }
  }

  // ----- a session writes such files -----

  /** Every entry of the log is, or hangs from, an entry of the session. */
  predicate Known(s: State, log: seq<Entry>) {
    forall x | x in log && !IsMeta(x) :: x.id in s.nodes && (x.parentId == "" || x.parentId in s.nodes)
  }

  lemma WrittenEntry(s: State, op: Op, w: World)
    requires (s.leaf == "" || s.leaf in s.nodes) && Written(s, op, w) != []
    ensures var e := Written(s, op, w)[0];
            && Written(s, op, w) == [e]
            && (!IsMeta(e) ==> e.id == w.id && (e.parentId == "" || e.parentId in s.nodes) && w.id in Live(s, op, w).nodes)
  {}

  lemma LiveGrows(s: State, op: Op, w: World)
    ensures forall id | id in s.nodes :: id in Live(s, op, w).nodes
    ensures (s.leaf == "" || s.leaf in s.nodes) ==> (Live(s, op, w).leaf == "" || Live(s, op, w).leaf in Live(s, op, w).nodes)
  {}

  lemma StepKeepsOrdered(s: State, log: seq<Entry>, op: Op, w: World)
    requires Ordered(log) && Known(s, log) && FreshId(s, w.id) && (s.leaf == "" || s.leaf in s.nodes)
    ensures Ordered(log + Written(s, op, w)) && Known(Live(s, op, w), log + Written(s, op, w))
    ensures Live(s, op, w).leaf == "" || Live(s, op, w).leaf in Live(s, op, w).nodes
  {
    LiveGrows(s, op, w);
    var written := Written(s, op, w);
    if written == [] {
      assert log + written == log;
    } else {
      WrittenEntry(s, op, w);
      EntryKeepsOrdered(s, log, written[0]);
      KnownMore(s, log, Live(s, op, w), written[0]);
    }
  }

  lemma EntryKeepsOrdered(s: State, log: seq<Entry>, e: Entry)
    requires Ordered(log) && Known(s, log)
    requires !IsMeta(e) ==> FreshId(s, e.id) && (e.parentId == "" || e.parentId in s.nodes)
    ensures Ordered(log + [e])
  {
    assert (log + [e])[..|log|] == log;
  }

  lemma KnownMore(s: State, log: seq<Entry>, t: State, e: Entry)
    requires Known(s, log) && forall id | id in s.nodes :: id in t.nodes
    requires !IsMeta(e) ==> e.id in t.nodes && (e.parentId == "" || e.parentId in s.nodes)
    ensures Known(t, log + [e])
  {}

  lemma {:induction false} RunWritesOrdered(s: State, log: seq<Entry>, steps: seq<Step>)
    requires Ordered(log) && Known(s, log) && FreshIds(s, steps) && (s.leaf == "" || s.leaf in s.nodes)
    ensures Ordered(log + RunLog(s, steps)) && Known(Run(s, steps), log + RunLog(s, steps))
    ensures Run(s, steps).leaf == "" || Run(s, steps).leaf in Run(s, steps).nodes
  {
    if steps == [] {
      assert log + [] == log;
    } else {
      var front, last := steps[..|steps| - 1], steps[|steps| - 1];
      RunWritesOrdered(s, log, front);
      StepKeepsOrdered(Run(s, front), log + RunLog(s, front), last.op, last.w);
      assert (log + RunLog(s, front)) + Written(Run(s, front), last.op, last.w) == log + RunLog(s, steps);
    }
  }

  /**
   Whatever operations a new session goes through, and whichever lines of its file are then lost: what is left opens
   into a tree without cycles, from which every walk to a root or to a missing parent ends.
   */
  lemma DamagedFileIsAcyclic(s: State, first: Entry, steps: seq<Step>, left: seq<Entry>)
    requires s.nodes == map[] && s.leaf == "" && IsMeta(first) && FreshIds(s, steps)
    requires Subseq(left, [first] + RunLog(s, steps))
    ensures Acyclic(Replay(left).nodes) && (Replay(left).leaf != "" ==> Replay(left).leaf in Replay(left).nodes)
  {
    assert [first][..0] == [];
    assert Ordered([first]);
    RunWritesOrdered(s, [first], steps);
    PartIsOrdered(left, [first] + RunLog(s, steps));
    OrderedIsAcyclic(left);
  }
}
