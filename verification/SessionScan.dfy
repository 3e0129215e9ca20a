/** The one-pass message count of the session list, against the branch that Open rebuilds. */
module SessionScan {
  import opened Prelude
  import opened SessionModel
  import opened SessionReplay
  import opened SessionTree

  datatype Summary = Summary(id: string, title: string, model: string, cwd: string, createdAt: int, parentId: string, messages: nat)

  predicate CountsAsMessage(typ: string) {
    typ == TYPE_USER || typ == TYPE_ASSISTANT || typ == TYPE_TOOL_RESULT || typ == TYPE_CUSTOM_MESSAGE
  }

  /** The count after one pass: by entry type alone, except that a compaction resets it. */
  function ScanCount(log: seq<Entry>): nat {
    if log == [] then 0
    else
      var e, before := log[|log| - 1], ScanCount(log[..|log| - 1]);
      if e.typ == TYPE_COMPACT && e.data.asCompact.Some? then |e.data.asCompact.value|
      else if CountsAsMessage(e.typ) then before + 1
      else before
  }

  method ScanSummary(log: seq<Entry>) returns (s: Summary)
    ensures s.messages == ScanCount(log)
    ensures var m := Replay(log).meta;
            s == Summary(m.id, m.title, m.model, m.cwd, m.createdAt, m.parentId, s.messages)
  {
    s := Summary("", "", "", "", 0, "", 0);
    for i := 0 to |log|
      invariant s.messages == ScanCount(log[..i])
      invariant var m := Replay(log[..i]).meta;
                s == Summary(m.id, m.title, m.model, m.cwd, m.createdAt, m.parentId, s.messages)
    {
      var e := log[i];
      assert log[..i + 1][..i] == log[..i];
      if e.typ == TYPE_META {
        if e.data.asMeta.Some? {
          var m := e.data.asMeta.value;
          s := Summary(m.id, m.title, m.model, m.cwd, m.createdAt, m.parentId, s.messages);
        }
      } else if e.typ == TYPE_COMPACT {
        if e.data.asCompact.Some? {
          s := s.(messages := |e.data.asCompact.value|);
        }
      } else if CountsAsMessage(e.typ) {
        s := s.(messages := s.messages + 1);
      }
    }
    assert log[..|log|] == log;
  }

  // ----- what Open shows -----

  /** Each entry hangs off the one before it, under an id not seen before: no branches, no resets. */
  predicate Chained(log: seq<Entry>) {
    log == [] ||
    (Chained(log[..|log| - 1]) &&
     var s, e := Replay(log[..|log| - 1]), log[|log| - 1];
     e.typ == TYPE_META || (FreshId(s, Upgrade(s, e).id) && Upgrade(s, e).parentId == s.leaf))
  }

  /** The length of Messages() after opening a chained log. */
  function ShownCount(log: seq<Entry>): nat {
    if log == [] then 0
    else
      ShownAfter(ShownCount(log[..|log| - 1]), NodeOf(log[|log| - 1]))
  }

  function ShownAfter(before: nat, n: Node): nat {
    if n.compact.Some? then |n.compact.value| else if n.message.Some? then before + 1 else before
  }

  /** p is the branch that replaying leaves active, made of entries that exist, and shows n messages. */
  ghost predicate ShowsMany(s: State, p: seq<Id>, n: nat) {
    && ActivePath(s, p) && |Fold(s.nodes, p)| == n
    && (s.leaf != "" ==> s.leaf in s.nodes) && forall x | x in p :: x in s.nodes
  }

  lemma {:induction false} ChainShows(log: seq<Entry>) returns (p: seq<Id>)
    requires Chained(log)
    ensures ShowsMany(Replay(log), p, ShownCount(log))
  {
    if log == [] {
      p := [];
    } else {
      var n := |log| - 1;
      p := ChainShows(log[..n]);
      p := ChainEntry(Replay(log[..n]), log[n], p, ShownCount(log[..n]));
    }
  }

  lemma ChainEntry(s: State, e: Entry, p: seq<Id>, n: nat) returns (q: seq<Id>)
    requires ShowsMany(s, p, n)
    requires e.typ != TYPE_META ==> FreshId(s, Upgrade(s, e).id) && Upgrade(s, e).parentId == s.leaf
    ensures ShowsMany(ReplayEntry(s, e), q, ShownAfter(n, NodeOf(e)))
  {
    q := p;
    if e.typ != TYPE_META {
      var u := Upgrade(s, e);
      q := ChainStep(s, p, u.id, NodeOf(u));
    } else {
      MetaIsNoNode(s, e);
    }
  }

  lemma MetaIsNoNode(s: State, e: Entry)
    requires e.typ == TYPE_META
    ensures NodeOf(e).compact == None && NodeOf(e).message == None
    ensures ReplayEntry(s, e).nodes == s.nodes && ReplayEntry(s, e).leaf == s.leaf
  {}

  /** A new entry hung below the leaf extends the path shown by one. */
  lemma ChainStep(s: State, p: seq<Id>, id: Id, n: Node) returns (q: seq<Id>)
    requires ActivePath(s, p) && (forall x | x in p :: x in s.nodes) && (s.leaf != "" ==> s.leaf in s.nodes)
    requires id != "" && id !in s.nodes && n.parentId == s.leaf
    ensures q == p + [id] && ActivePath(s.(nodes := s.nodes[id := n], leaf := id), q)
    ensures Fold(s.nodes[id := n], q) == AddNode(Fold(s.nodes, p), n)
  {
    if p != [] { WalkSnoc(s.nodes, s.leaf, p, id, n); }
    FoldFrame(s.nodes, p, id, n);
    FoldSnoc(s.nodes[id := n], p, id);
    q := p + [id];
  }

  // ----- agreement -----

  /** The entry's data decodes, down to every message of a checkpoint. */
  predicate Readable(e: Entry) {
    && (e.typ == TYPE_CUSTOM_MESSAGE ==> e.data.asCustom.Some?)
    && (CountsAsMessage(e.typ) && e.typ != TYPE_CUSTOM_MESSAGE ==> DecodeMessage(e.typ, e.data).Some?)
    && (e.typ == TYPE_COMPACT ==> e.data.asCompact.Some? && |ReplayCompact(e.data.asCompact.value)| == |e.data.asCompact.value|)
  }

  predicate EmptyCheckpoint(e: Entry) {
    e.typ == TYPE_COMPACT && e.data.asCompact.Some? && e.data.asCompact.value == []
  }

  /** Every empty checkpoint since the last nonempty one found nothing to discard. */
  predicate NothingDiscarded(log: seq<Entry>) {
    log == [] ||
    var e, front := log[|log| - 1], log[..|log| - 1];
    if EmptyCheckpoint(e) then ShownCount(front) == 0
    else e.typ == TYPE_COMPACT || NothingDiscarded(front)
  }

  lemma {:induction false} CountsAgreeIff(log: seq<Entry>)
    requires forall i | 0 <= i < |log| :: Readable(log[i])
    ensures ScanCount(log) == ShownCount(log) <==> NothingDiscarded(log)
  {
    if log != [] {
      var front, e := log[..|log| - 1], log[|log| - 1];
      CountsAgreeIff(front);
      assert Readable(e);
    }
  }

  /** On a readable single chain the list shows exactly the number of messages Open shows, unless an empty checkpoint discarded some. */
  lemma ScanMatchesOpenIff(log: seq<Entry>, msgs: seq<Message>)
    requires Chained(log) && Shows(Replay(log), msgs)
    requires forall i | 0 <= i < |log| :: Readable(log[i])
    ensures ScanCount(log) == |msgs| <==> NothingDiscarded(log)
  {
    var p := ChainShows(log);
    ShowsUnique(Replay(log), msgs, Fold(Replay(log).nodes, p));
    CountsAgreeIff(log);
  }

  /** In particular across any number of nonempty compactions. */
  lemma {:induction false} NonemptyCheckpointsDiscardNothing(log: seq<Entry>)
    requires forall i | 0 <= i < |log| :: !EmptyCheckpoint(log[i])
    ensures NothingDiscarded(log)
  {
    if log != [] {
      NonemptyCheckpointsDiscardNothing(log[..|log| - 1]);
      assert !EmptyCheckpoint(log[|log| - 1]);
    }
  }

  // ----- a session's own file -----

  /** An ordinary step that neither branches nor resets, nor compacts to nothing. */
  predicate StraightOn(st: Step) {
    Ordinary(st) && !EmptyCompaction(st) && !st.op.Branch? && !st.op.ResetLeaf?
  }

  lemma WrittenIsReadable(s: State, st: Step)
    requires StraightOn(st)
    ensures forall e | e in Written(s, st.op, st.w) :: Readable(e) && !EmptyCheckpoint(e)
  {
    if st.op.AppendCompact? { CompactRoundTrip(st.op.msgs); }
  }

  /** The next line of such a run continues the chain. */
  lemma WrittenContinues(log: seq<Entry>, st: Step)
    requires Chained(log) && StraightOn(st) && FreshId(Replay(log), st.w.id)
    ensures Chained(log + Written(Replay(log), st.op, st.w))
  {
    var ws := Written(Replay(log), st.op, st.w);
    if ws == [] {
      assert log + ws == log;
    } else {
      assert ws == [ws[0]] && (log + ws)[..|log|] == log && (log + ws)[|log|] == ws[0];
    }
  }

  lemma {:induction false} RunContinues(log: seq<Entry>, steps: seq<Step>)
    requires Chained(log) && FreshIds(Replay(log), steps)
    requires forall i | 0 <= i < |steps| :: StraightOn(steps[i])
    ensures var more := RunLog(Replay(log), steps);
            && Chained(log + more) && Replay(log + more) == Run(Replay(log), steps)
            && forall e | e in more :: Readable(e) && !EmptyCheckpoint(e)
  {
    var s := Replay(log);
    if steps == [] {
      assert log + RunLog(s, steps) == log;
    } else {
      var front, last := steps[..|steps| - 1], steps[|steps| - 1];
      RunContinues(log, front);
      var before := log + RunLog(s, front);
      assert StraightOn(last);
      WrittenIsReadable(Replay(before), last);
      WrittenContinues(before, last);
      StepAgreesIff(Replay(before), last.op, last.w, before);
      assert log + RunLog(s, steps) == before + Written(Replay(before), last.op, last.w);
    }
  }

  /** The count listed for a session that only went straight on is the length of the conversation it shows. */
  lemma {:induction false} OwnFileIsCounted(first: Entry, steps: seq<Step>, msgs: seq<Message>)
    requires first.typ == TYPE_META && FreshIds(Replay([first]), steps)
    requires forall i | 0 <= i < |steps| :: StraightOn(steps[i])
    requires Shows(Run(Replay([first]), steps), msgs)
    ensures ScanCount([first] + RunLog(Replay([first]), steps)) == |msgs|
  {
    FirstIsChained(first);
    RunContinues([first], steps);
    StraightIsReadable(first, RunLog(Replay([first]), steps));
    NonemptyCheckpointsDiscardNothing([first] + RunLog(Replay([first]), steps));
    ScanMatchesOpenIff([first] + RunLog(Replay([first]), steps), msgs);
  }

  lemma FirstIsChained(first: Entry)
    requires first.typ == TYPE_META
    ensures Chained([first])
  {
    assert [first][..0] == [];
  }

  lemma StraightIsReadable(first: Entry, more: seq<Entry>)
    requires first.typ == TYPE_META && forall e | e in more :: Readable(e) && !EmptyCheckpoint(e)
    ensures forall i | 0 <= i < |[first] + more| :: Readable(([first] + more)[i]) && !EmptyCheckpoint(([first] + more)[i])
  {}

  /** Off a chain the count is not the branch: an abandoned reply still counts. */
  lemma BranchedCountDiffers(m: Message, t: int)
    requires m.UserMessage?
    ensures var log := [Entry(TYPE_USER, "a", "", t, EncodeMessage(m), 0),
                        Entry(TYPE_USER, "b", "a", t, EncodeMessage(m), 0),
                        Entry(TYPE_BRANCH_SUMMARY, "c", "a", t, OPAQUE_JSON, 0)];
            ScanCount(log) == 2 && Shows(Replay(log), [m])
  {
    var e1, e2, e3 := Entry(TYPE_USER, "a", "", t, EncodeMessage(m), 0),
                      Entry(TYPE_USER, "b", "a", t, EncodeMessage(m), 0),
                      Entry(TYPE_BRANCH_SUMMARY, "c", "a", t, OPAQUE_JSON, 0);
    assert [e1, e2, e3][..2] == [e1, e2] && [e1, e2][..1] == [e1] && [e1][..0] == [];
    var s := Replay([e1, e2, e3]);
    assert Replay([e1]) == ReplayEntry(EMPTY, e1);
    assert Replay([e1, e2]) == ReplayEntry(Replay([e1]), e2);
    assert s == ReplayEntry(Replay([e1, e2]), e3);
    assert ScanCount([]) == 0 && ScanCount([e1]) == 1 && ScanCount([e1, e2]) == 2;
    assert Walk(s.nodes, "c", ["a", "c"]);
    assert ["a", "c"][..1] == ["a"] && ["a"][..0] == [];
    assert Fold(s.nodes, ["a"]) == [m];
    assert Fold(s.nodes, ["a", "c"]) == [m];
    assert ActivePath(s, ["a", "c"]);
  }
}
