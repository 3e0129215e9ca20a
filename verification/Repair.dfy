/** Repairing a conversation that was interrupted: every tool call gets a result, right after the message that made it. */
module Repair {
  import opened Conversation
  import opened Subsequences

  const INTERRUPTED := "[error:TOOL_INTERRUPTED] tool execution did not complete before session was interrupted; result unavailable"

  function Synthetic(c: ToolCall): Message { ToolResult(c.id, c.name, INTERRUPTED, true) }

  /** The ids of all tool calls that have a result somewhere in the history. */
  function ResultIds(msgs: seq<Message>): set<string> {
    set m | m in msgs && m.ToolResult? :: m.callId
  }

  /** Placeholder results for the calls without a result, in the order of the calls. */
  function Synthetics(calls: seq<ToolCall>, ids: set<string>): seq<Message> {
    if calls == [] then []
    else if calls[|calls| - 1].id in ids then Synthetics(calls[..|calls| - 1], ids)
    else Synthetics(calls[..|calls| - 1], ids) + [Synthetic(calls[|calls| - 1])]
  }

  /** A message followed at once by the placeholders for its own calls. */
  function Block(m: Message, ids: set<string>): seq<Message> { [m] + Synthetics(CallsOf(m), ids) }

  /** Each message with its placeholders. */
  function RepairWith(msgs: seq<Message>, ids: set<string>): seq<Message> {
    if msgs == [] then []
    else RepairWith(msgs[..|msgs| - 1], ids) + Block(msgs[|msgs| - 1], ids)
  }

  function Repaired(msgs: seq<Message>): seq<Message> { RepairWith(msgs, ResultIds(msgs)) }

  /** Every tool call made in the history has a result in it. */
  ghost predicate NoOrphans(msgs: seq<Message>) {
    forall i, c | 0 <= i < |msgs| && c in CallsOf(msgs[i]) :: c.id in ResultIds(msgs)
  }

  /** The placeholders stand for exactly the calls without a result, one for each, in their order. */
  ghost predicate StandFor(calls: seq<ToolCall>, ids: set<string>, added: seq<Message>, at: seq<nat>) {
    && |at| == |added| && (forall j, k | 0 <= j < k < |at| :: at[j] < at[k])
    && (forall j | 0 <= j < |at| :: at[j] < |calls| && Placeholder(calls[at[j]], added[j]) && calls[at[j]].id !in ids)
    && (forall i | 0 <= i < |calls| && calls[i].id !in ids :: i in at)
  }

  /** An error under the call's id and name that says what happened. */
  ghost predicate Placeholder(c: ToolCall, m: Message) {
    m == ToolResult(c.id, c.name, INTERRUPTED, true)
  }

  lemma StandForMore(calls: seq<ToolCall>, ids: set<string>, added: seq<Message>, at: seq<nat>, c: ToolCall)
    requires StandFor(calls, ids, added, at)
    ensures c.id in ids ==> StandFor(calls + [c], ids, added, at)
    ensures c.id !in ids ==> StandFor(calls + [c], ids, added + [Synthetic(c)], at + [|calls|])
  {
    if c.id !in ids {
      forall i | 0 <= i < |calls + [c]| && (calls + [c])[i].id !in ids ensures i in at + [|calls|] {
        if i < |calls| { assert i in at; }
      }
    }
  }

  lemma {:induction false} SyntheticsStand(calls: seq<ToolCall>, ids: set<string>) returns (at: seq<nat>)
    ensures StandFor(calls, ids, Synthetics(calls, ids), at)
  {
    at := [];
    if calls != [] {
      var n := |calls| - 1;
      at := SyntheticsStand(calls[..n], ids);
      StandForMore(calls[..n], ids, Synthetics(calls[..n], ids), at, calls[n]);
      assert calls == calls[..n] + [calls[n]];
      if calls[n].id !in ids { at := at + [n]; }
    }
  }

  // ----- the repair is needed exactly when something is missing -----

  lemma {:induction false} SyntheticsEmptyIff(calls: seq<ToolCall>, ids: set<string>)
    ensures Synthetics(calls, ids) == [] <==> forall c | c in calls :: c.id in ids
  {
    if calls != [] {
      SyntheticsEmptyIff(calls[..|calls| - 1], ids);
      assert calls == calls[..|calls| - 1] + [calls[|calls| - 1]];
    }
  }

  ghost predicate AllAnswered(msgs: seq<Message>, ids: set<string>) {
    forall i, c | 0 <= i < |msgs| && c in CallsOf(msgs[i]) :: c.id in ids
  }

  lemma AllAnsweredSnoc(front: seq<Message>, m: Message, ids: set<string>)
    ensures AllAnswered(front + [m], ids) <==> AllAnswered(front, ids) && forall c | c in CallsOf(m) :: c.id in ids
  {
    var msgs := front + [m];
    if AllAnswered(msgs, ids) {
      forall i, c | 0 <= i < |front| && c in CallsOf(front[i]) ensures c.id in ids { assert c in CallsOf(msgs[i]); }
      forall c | c in CallsOf(m) ensures c.id in ids { assert c in CallsOf(msgs[|front|]); }
    }
  }

  lemma SameOnlyIfSame(a: seq<Message>, front: seq<Message>, m: Message, more: seq<Message>)
    requires |a| >= |front|
    ensures a + ([m] + more) == front + [m] <==> a == front && more == []
  {
    if a + ([m] + more) == front + [m] {
      assert more == [] && |a| == |front|;
      assert a == (a + ([m] + more))[..|a|];
      assert front == (front + [m])[..|front|];
    }
  }

  lemma {:induction false} RepairGrows(msgs: seq<Message>, ids: set<string>)
    ensures |RepairWith(msgs, ids)| >= |msgs|
    ensures RepairWith(msgs, ids) == msgs <==> AllAnswered(msgs, ids)
  {
    if msgs != [] {
      var front, m := msgs[..|msgs| - 1], msgs[|msgs| - 1];
      assert msgs == front + [m];
      RepairGrows(front, ids);
      SyntheticsEmptyIff(CallsOf(m), ids);
      AllAnsweredSnoc(front, m, ids);
      SameOnlyIfSame(RepairWith(front, ids), front, m, Synthetics(CallsOf(m), ids));
    }
  }

  /** A history is returned unchanged if and only if no call in it lacks a result. */
  lemma UnchangedIffNoOrphans(msgs: seq<Message>)
    ensures Repaired(msgs) == msgs <==> NoOrphans(msgs)
  {
    RepairGrows(msgs, ResultIds(msgs));
  }

  // ----- afterwards nothing is missing -----

  lemma {:induction false} SyntheticsAnswer(calls: seq<ToolCall>, ids: set<string>, c: ToolCall)
    requires c in calls && c.id !in ids
    ensures Synthetic(c) in Synthetics(calls, ids)
  {
    var front, last := calls[..|calls| - 1], calls[|calls| - 1];
    assert calls == front + [last];
    if c in front {
      SyntheticsAnswer(front, ids, c);
    } else {
      assert c == last;
    }
  }

  lemma {:induction false} SyntheticsAreResults(calls: seq<ToolCall>, ids: set<string>)
    ensures forall m | m in Synthetics(calls, ids) :: m.ToolResult? && m.isError && m.callId !in ids && CallsOf(m) == []
  {
    if calls != [] { SyntheticsAreResults(calls[..|calls| - 1], ids); }
  }

  /** Everything in the repaired history is an original message or a placeholder for one of its calls. */
  lemma {:induction false} RepairContents(msgs: seq<Message>, ids: set<string>)
    ensures forall m | m in msgs :: m in RepairWith(msgs, ids)
    ensures forall m | m in RepairWith(msgs, ids) :: m in msgs || (m.ToolResult? && m.callId !in ids)
    ensures forall i, c | 0 <= i < |msgs| && c in CallsOf(msgs[i]) && c.id !in ids :: Synthetic(c) in RepairWith(msgs, ids)
  {
    if msgs != [] {
      var front, m := msgs[..|msgs| - 1], msgs[|msgs| - 1];
      RepairContents(front, ids);
      SyntheticsAreResults(CallsOf(m), ids);
      assert msgs == front + [m];
      forall i, c | 0 <= i < |msgs| && c in CallsOf(msgs[i]) && c.id !in ids
        ensures Synthetic(c) in RepairWith(msgs, ids)
      {
        if i < |front| {
          assert c in CallsOf(front[i]);
        } else {
          SyntheticsAnswer(CallsOf(m), ids, c);
        }
      }
    }
  }

  lemma LeavesNoOrphans(msgs: seq<Message>)
    ensures NoOrphans(Repaired(msgs))
  {
    var ids, out := ResultIds(msgs), Repaired(msgs);
    RepairContents(msgs, ids);
    forall i, c | 0 <= i < |out| && c in CallsOf(out[i]) ensures c.id in ResultIds(out) {
      assert out[i] in out;
      var j :| 0 <= j < |msgs| && msgs[j] == out[i];
      if c.id in ids {
        var r :| r in msgs && r.ToolResult? && r.callId == c.id;
        assert r in out;
      } else {
        assert c in CallsOf(msgs[j]);
        assert Synthetic(c) in out && Synthetic(c).callId == c.id;
      }
    }
  }

  /** A second repair changes nothing. */
  lemma RepairIsIdempotent(msgs: seq<Message>)
    ensures Repaired(Repaired(msgs)) == Repaired(msgs)
  {
    LeavesNoOrphans(msgs);
    UnchangedIffNoOrphans(Repaired(msgs));
  }

  // ----- nothing is lost, and placeholders stand where they belong -----

  lemma {:induction false} SubseqAppend<T>(xs: seq<T>, ys: seq<T>, zs: seq<T>)
    requires Subseq(xs, ys)
    ensures Subseq(xs, ys + zs)
    decreases |zs|
  {
    if zs == [] {
      assert ys + zs == ys;
    } else {
      SubseqAppend(xs, ys, zs[..|zs| - 1]);
      SubseqSkip(xs, ys + zs[..|zs| - 1], zs[|zs| - 1]);
      assert ys + zs == (ys + zs[..|zs| - 1]) + [zs[|zs| - 1]];
    }
  }

  lemma KeepStep<T>(xs: seq<T>, ys: seq<T>, x: T, zs: seq<T>)
    requires Subseq(xs, ys)
    ensures Subseq(xs + [x], ys + [x] + zs)
  {
    SubseqKeep(xs, ys, x);
    SubseqAppend(xs + [x], ys + [x], zs);
  }

  /** The original messages are all there, in their order. */
  lemma {:induction false} KeepsHistory(msgs: seq<Message>, ids: set<string>)
    ensures Subseq(msgs, RepairWith(msgs, ids))
  {
    if msgs != [] {
      var front, m := msgs[..|msgs| - 1], msgs[|msgs| - 1];
      KeepsHistory(front, ids);
      KeepStep(front, RepairWith(front, ids), m, Synthetics(CallsOf(m), ids));
      Regroup(RepairWith(front, ids), [m], Synthetics(CallsOf(m), ids));
      assert msgs == front + [m];
    }
  }

  lemma RepairSnoc(msgs: seq<Message>, m: Message, ids: set<string>)
    ensures RepairWith(msgs + [m], ids) == RepairWith(msgs, ids) + Block(m, ids)
  {
    assert (msgs + [m])[..|msgs|] == msgs;
  }

  lemma Regroup<T>(x: seq<T>, y: seq<T>, z: seq<T>)
    ensures (x + y) + z == x + (y + z)
  {}

  lemma {:induction false} RepairSplits(a: seq<Message>, b: seq<Message>, ids: set<string>)
    ensures RepairWith(a + b, ids) == RepairWith(a, ids) + RepairWith(b, ids)
    decreases |b|
  {
    if b == [] {
      assert a + b == a;
    } else {
      var front, m := b[..|b| - 1], b[|b| - 1];
      RepairSplits(a, front, ids);
      Regroup(a, front, [m]);
      Regroup(RepairWith(a, ids), RepairWith(front, ids), Block(m, ids));
      RepairSnoc(a + front, m, ids);
      assert b == front + [m];
    }
  }

  /** Around message k: it is followed at once by the placeholders for its own unanswered calls, then by the next message. */
  lemma InsertsRightAfter(msgs: seq<Message>, k: nat)
    requires k < |msgs|
    ensures exists added, at ::
              && StandFor(CallsOf(msgs[k]), ResultIds(msgs), added, at)
              && Repaired(msgs) == RepairWith(msgs[..k], ResultIds(msgs)) + [msgs[k]] + added + RepairWith(msgs[k + 1..], ResultIds(msgs))
  {
    var ids := ResultIds(msgs);
    var at := SyntheticsStand(CallsOf(msgs[k]), ids);
    assert msgs == msgs[..k + 1] + msgs[k + 1..] && msgs[..k + 1][..k] == msgs[..k];
    RepairSplits(msgs[..k + 1], msgs[k + 1..], ids);
  }

  // ----- the two passes -----

  method RepairMessageSequence(msgs: seq<Message>) returns (out: seq<Message>)
    ensures out == Repaired(msgs)
  {
    var hasResult := CollectResults(msgs);
    out := [];
    var repaired := false;
    for i := 0 to |msgs|
      invariant out == RepairWith(msgs[..i], hasResult)
      invariant !repaired ==> out == msgs[..i]
    {
      assert msgs[..i + 1] == msgs[..i] + [msgs[i]];
      RepairSnoc(msgs[..i], msgs[i], hasResult);
      var added := [];
      if msgs[i].Assistant? {
        added := AddSynthetics(msgs[i].content, hasResult);
        if added != [] { repaired := true; }
      }
      Regroup(out, [msgs[i]], added);
      out := out + [msgs[i]] + added;
    }
    assert msgs[..|msgs|] == msgs;
    if !repaired { return msgs; }
  }

  method CollectResults(msgs: seq<Message>) returns (hasResult: set<string>)
    ensures hasResult == ResultIds(msgs)
  {
    hasResult := {};
    for i := 0 to |msgs|
      invariant hasResult == ResultIds(msgs[..i])
    {
      ResultIdsSnoc(msgs[..i], msgs[i]);
      assert msgs[..i + 1] == msgs[..i] + [msgs[i]];
      if msgs[i].ToolResult? { hasResult := hasResult + {msgs[i].callId}; }
    }
    assert msgs[..|msgs|] == msgs;
  }

  lemma ResultIdsSnoc(msgs: seq<Message>, m: Message)
    ensures ResultIds(msgs + [m]) == if m.ToolResult? then ResultIds(msgs) + {m.callId} else ResultIds(msgs)
  {
    assert forall x :: x in msgs + [m] <==> x in msgs || x == m;
  }

  method AddSynthetics(content: seq<Content>, hasResult: set<string>) returns (added: seq<Message>)
    ensures added == Synthetics(CallsIn(content), hasResult)
  {
    added := [];
    for i := 0 to |content|
      invariant added == Synthetics(CallsIn(content[..i]), hasResult)
    {
      assert content[..i + 1][..i] == content[..i];
      if content[i].Call? {
        assert CallsIn(content[..i + 1])[..|CallsIn(content[..i])|] == CallsIn(content[..i]);
        if content[i].call.id !in hasResult { added := added + [Synthetic(content[i].call)]; }
      }
    }
    assert content[..|content|] == content;
  }
}
