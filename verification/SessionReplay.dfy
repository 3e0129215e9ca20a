/** Replaying the written log rebuilds the live session: exactly when, and over whole runs. */
module SessionReplay {
  import opened Prelude
  import opened SessionModel

  /**
   The condition, checkable before the call, under which a live operation
   leaves the same state in memory as its log line leaves after a reload.
   */
  predicate Harmless(s: State, op: Op, w: World) {
    match op
    case AppendCompact(msgs, _) => w.ok ==> msgs != []
    case AppendCustom(kind, data) => w.ok ==> HarmlessCustom(s, kind, data)
    case SetTitle(t) => w.ok || t == s.meta.title
    case SetModel(m) => w.ok || m == s.meta.model
    case _ => true
  }

  /** A custom kind must not be read back as one of the package's own entry types. */
  predicate HarmlessCustom(s: State, kind: string, data: Raw) {
    if kind == TYPE_META then false
    else if kind == TYPE_CUSTOM_MESSAGE then data.asCustom.None?
    else if kind == TYPE_COMPACT then data.asCompact.Some? ==> ReplayCompact(data.asCompact.value) == []
    else if kind == TYPE_LABEL then
      data.asLabel.Some? ==>
        var ld := data.asLabel.value;
        if ld.tag == "" then ld.target !in s.labels else ld.target in s.labels && s.labels[ld.target] == ld.tag
    else DecodeMessage(kind, data).None?
  }

  lemma {:induction false} CompactRoundTrip(msgs: seq<Message>)
    ensures EncodeCompact(msgs).asCompact.Some?
    ensures ReplayCompact(EncodeCompact(msgs).asCompact.value) == msgs
  {
    var es := EncodeCompact(msgs).asCompact.value;
    if msgs != [] {
      var front := msgs[..|msgs| - 1];
      CompactRoundTrip(front);
      assert es[..|es| - 1] == EncodeCompact(front).asCompact.value;
      assert msgs == front + [msgs[|msgs| - 1]];
    }
  }

  /** Of a checkpoint's entries each counts for itself, in order. */
  lemma {:induction false} CompactConcat(xs: seq<SubEntry>, ys: seq<SubEntry>)
    ensures ReplayCompact(xs + ys) == ReplayCompact(xs) + ReplayCompact(ys)
  {
    if ys == [] {
      assert xs + ys == xs;
    } else {
      CompactConcat(xs, ys[..|ys| - 1]);
      assert (xs + ys)[..|xs + ys| - 1] == xs + ys[..|ys| - 1];
    }
  }

  /** One that its type's decoder accepts gives its message; one of another type, or that cannot be decoded, nothing. */
  lemma CompactOne(e: SubEntry)
    ensures var m := if e.typ == "user" then e.data.asUser
                     else if e.typ == "assistant" then e.data.asAssistant
                     else if e.typ == "tool_result" then e.data.asToolResult
                     else None;
            ReplayCompact([e]) == if m.Some? then [m.value] else []
  {
    assert [e][..0] == [] && ReplayCompact([]) == [];
  }

  /** The replayed state after one more line. */
  lemma ReplaySnoc(log: seq<Entry>, e: Entry)
    ensures Replay(log + [e]) == ReplayEntry(Replay(log), e)
  {
    assert (log + [e])[..|log|] == log;
  }

  lemma {:induction false} ReplayIdIsMetaId(log: seq<Entry>)
    ensures Replay(log).id == Replay(log).meta.id
  {
    if log != [] { ReplayIdIsMetaId(log[..|log| - 1]); }
  }

  /** What each kind of line leaves at the leaf, read literally. */
  lemma LineLeaves(s: State, e: Entry)
    requires e.typ != "meta"
    ensures var t := ReplayEntry(s, e);
            && t.leaf in t.nodes && t.nodes - {t.leaf} == s.nodes - {t.leaf} && t.id == s.id && t.meta == s.meta
            && (e.id != "" ==> t.leaf == e.id && t.nodes[t.leaf].parentId == e.parentId && t.legacySeq == s.legacySeq)
            && t.nodes[t.leaf].typ == e.typ && t.nodes[t.leaf].ts == e.ts
    ensures var n := ReplayEntry(s, e).nodes[ReplayEntry(s, e).leaf];
            && (e.typ == "user" ==> n.message == e.data.asUser)
            && (e.typ == "assistant" ==> n.message == e.data.asAssistant)
            && (e.typ == "tool_result" ==> n.message == e.data.asToolResult)
            && (e.typ == "custom_message" ==> CustomMessageOf(e.data.asCustom, e.ts, n.message))
            && (e.typ !in {"user", "assistant", "tool_result", "custom_message"} ==> n.message == None)
            && (e.typ != "compact" || e.data.asCompact.None? ==> n.compact == None)
            && n.tokensBefore == if e.typ == "compact" then e.tokensBefore else 0
    ensures var labels := ReplayEntry(s, e).labels;
            if e.typ == "label" && e.data.asLabel.Some?
            then LabelSet(s.labels, e.data.asLabel.value.target, e.data.asLabel.value.tag, labels) else labels == s.labels
  {
    var t := ReplayEntry(s, e);
    assert t.nodes - {t.leaf} == s.nodes - {t.leaf};
  }

  /** An assistant's message if the role says so, else the user's at that time. */
  predicate CustomMessageOf(data: Option<CustomMessageData>, ts: int, m: Option<Message>) {
    match data
    case None => m == None
    case Some(cm) => m == if cm.role == "assistant" then Some(AssistantMessage(cm.content)) else Some(UserMessage(cm.content, ts))
  }

  /** The target has this label, or none if it is empty; the other labels are as before. */
  predicate LabelSet(before: map<Id, string>, target: Id, tag: string, after: map<Id, string>) {
    && (if tag == "" then target !in after else target in after && after[target] == tag)
    && after - {target} == before - {target}
  }

  /** For a session in agreement with its file: the next operation keeps the agreement if and only if it is harmless. */
  lemma StepAgreesIff(s: State, op: Op, w: World, log: seq<Entry>)
    requires s == Replay(log) && FreshId(s, w.id)
    ensures Live(s, op, w) == Replay(log + Written(s, op, w)) <==> Harmless(s, op, w)
  {
    var ws := Written(s, op, w);
    if ws == [] {
      assert log + ws == log;
    } else {
      var e := ws[0];
      assert ws == [e];
      ReplaySnoc(log, e);
      if IsMetaOp(op) {
        ReplayIdIsMetaId(log);
        ReplayedMetaOp(s, op, w);
      } else {
        ReplayedNodeOp(s, op, w);
      }
    }
  }

  lemma ReplayedMetaOp(s: State, op: Op, w: World)
    requires IsMetaOp(op) && w.ok
    requires s.id == s.meta.id
    ensures ReplayEntry(s, Written(s, op, w)[0]) == Live(s, op, w)
  {}

  lemma ReplayedNodeOp(s: State, op: Op, w: World)
    requires !IsMetaOp(op) && w.ok && !Rejected(s, op) && FreshId(s, w.id)
    ensures ReplayEntry(s, Written(s, op, w)[0]) == Live(s, op, w) <==> Harmless(s, op, w)
  {
    var e := Written(s, op, w)[0];
    var r, l := ReplayEntry(s, e), Live(s, op, w);
    if op.AppendCompact? { CompactRoundTrip(op.msgs); }
    if e.typ == TYPE_META {
      assert r.nodes == s.nodes && w.id in l.nodes;
    } else {
      assert r.nodes[w.id] == NodeOf(e) && l.nodes[w.id] == LiveNode(s, op, w);
    }
  }

  // ----- whole runs -----

  predicate HarmlessRun(s: State, steps: seq<Step>) {
    steps == [] ||
    (HarmlessRun(s, steps[..|steps| - 1]) &&
     Harmless(Run(s, steps[..|steps| - 1]), steps[|steps| - 1].op, steps[|steps| - 1].w))
  }

  /** After any run of harmless operations the file replays to exactly the live fields. */
  lemma {:induction false} RunAgrees(log: seq<Entry>, steps: seq<Step>)
    requires FreshIds(Replay(log), steps) && HarmlessRun(Replay(log), steps)
    ensures Replay(log + RunLog(Replay(log), steps)) == Run(Replay(log), steps)
  {
    var s0 := Replay(log);
    if steps == [] {
      assert log + RunLog(s0, steps) == log;
    } else {
      var front, last := steps[..|steps| - 1], steps[|steps| - 1];
      RunAgrees(log, front);
      var s, file := Run(s0, front), log + RunLog(s0, front);
      StepAgreesIff(s, last.op, last.w, file);
      assert log + RunLog(s0, steps) == file + Written(s, last.op, last.w);
    }
  }

  predicate Reserved(kind: string) {
    kind in {TYPE_USER, TYPE_ASSISTANT, TYPE_TOOL_RESULT, TYPE_META, TYPE_COMPACT,
             TYPE_BRANCH_SUMMARY, TYPE_CUSTOM_MESSAGE, TYPE_LABEL}
  }

  /** Custom kinds are namespaced and title/model writes succeed; compactions may be of any list. */
  predicate Ordinary(st: Step) {
    && (st.op.AppendCustom? ==> !Reserved(st.op.kind))
    && (IsMetaOp(st.op) ==> st.w.ok)
  }

  predicate EmptyCompaction(st: Step) { st.op.AppendCompact? && st.op.msgs == [] && st.w.ok }

  /** The exact point of failure: an ordinary run reloads faithfully if and only if it never compacted to the empty list. */
  lemma {:induction false} OrdinaryRunAgreesIff(log: seq<Entry>, steps: seq<Step>)
    requires FreshIds(Replay(log), steps)
    requires forall i | 0 <= i < |steps| :: Ordinary(steps[i])
    ensures Replay(log + RunLog(Replay(log), steps)) == Run(Replay(log), steps)
            <==> forall i | 0 <= i < |steps| :: !EmptyCompaction(steps[i])
  {
    if forall i | 0 <= i < |steps| :: !EmptyCompaction(steps[i]) {
      OrdinaryIsHarmless(Replay(log), steps);
      RunAgrees(log, steps);
    } else {
      var i :| 0 <= i < |steps| && EmptyCompaction(steps[i]);
      EmptyCompactionStays(Replay(log), steps, i);
      ReplayNeverEmptyCompact(log + RunLog(Replay(log), steps));
    }
  }

  lemma {:induction false} OrdinaryIsHarmless(s: State, steps: seq<Step>)
    requires forall i | 0 <= i < |steps| :: Ordinary(steps[i]) && !EmptyCompaction(steps[i])
    ensures HarmlessRun(s, steps)
  {
    if steps != [] {
      OrdinaryIsHarmless(s, steps[..|steps| - 1]);
      assert Ordinary(steps[|steps| - 1]) && !EmptyCompaction(steps[|steps| - 1]);
    }
  }

  /** A reloaded node never holds an empty, non-nil compact list ... */
  lemma {:induction false} ReplayNeverEmptyCompact(log: seq<Entry>)
    ensures forall id | id in Replay(log).nodes :: Replay(log).nodes[id].compact != Some([])
  {
    if log != [] { ReplayNeverEmptyCompact(log[..|log| - 1]); }
  }

  /** ... while a live one keeps it for the rest of the run. */
  lemma {:induction false} EmptyCompactionStays(s: State, steps: seq<Step>, i: nat)
    requires FreshIds(s, steps) && i < |steps| && EmptyCompaction(steps[i])
    ensures steps[i].w.id in Run(s, steps).nodes && Run(s, steps).nodes[steps[i].w.id].compact == Some([])
  {
    var n := |steps| - 1;
    if i < n {
      EmptyCompactionStays(s, steps[..n], i);
    }
  }

  /** The smallest failing run: a message, then a compaction to nothing. */
  lemma EmptyCompactionDiverges(meta: Meta, m: Message, t: int)
    ensures var s0 := Replay([Entry(TYPE_META, "", "", t, EncodeMeta(meta), 0)]);
            var steps := [Step(Append(m), World("a", t, true)), Step(AppendCompact([], 0), World("b", t, true))];
            FreshIds(s0, steps) &&
            Replay([Entry(TYPE_META, "", "", t, EncodeMeta(meta), 0)] + RunLog(s0, steps)) != Run(s0, steps)
  {
    var log := [Entry(TYPE_META, "", "", t, EncodeMeta(meta), 0)];
    var s0 := Replay(log);
    ReplaySnoc([], log[0]);
    assert [] + [log[0]] == log;
    var one, two := Step(Append(m), World("a", t, true)), Step(AppendCompact([], 0), World("b", t, true));
    assert [one, two][..1] == [one] && [one][..0] == [];
    assert FreshIds(s0, []) && Run(s0, []) == s0;
    assert Run(s0, [one]) == Live(s0, one.op, one.w);
    assert EmptyCompaction([one, two][1]);
    assert FreshIds(s0, [one]);
    OrdinaryRunAgreesIff(log, [one, two]);
  }
}
