/** The conversation: messages exchanged with the model. */
module Conversation {

  datatype ToolCall = ToolCall(id: string, name: string)

  datatype Content = Prose(text: string) | Call(call: ToolCall)

  datatype StopReason = StopNormal | StopLength | StopTool | StopError | StopAborted

  datatype Message =
    | User(text: string)
    | Assistant(content: seq<Content>, stop: StopReason, inputTokens: nat)
    | ToolResult(callId: string, name: string, text: string, isError: bool)

  function CallsIn(content: seq<Content>): seq<ToolCall> {
    if content == [] then []
    else if content[|content| - 1].Call? then CallsIn(content[..|content| - 1]) + [content[|content| - 1].call]
    else CallsIn(content[..|content| - 1])
  }

  function CallsOf(m: Message): seq<ToolCall> {
    if m.Assistant? then CallsIn(m.content) else []
  }

  /** The calls stand at exactly these positions, in order. */
  ghost predicate StandAt(content: seq<Content>, calls: seq<ToolCall>, at: seq<nat>) {
    && |at| == |calls|
    && (forall i, j | 0 <= i < j < |at| :: at[i] < at[j])
    && (forall j | 0 <= j < |at| :: at[j] < |content| && content[at[j]] == Call(calls[j]))
    && (forall i | 0 <= i < |content| && content[i].Call? :: i in at)
  }

  lemma StandMore(content: seq<Content>, calls: seq<ToolCall>, at: seq<nat>, x: Content)
    requires StandAt(content, calls, at)
    ensures x.Prose? ==> StandAt(content + [x], calls, at)
    ensures x.Call? ==> StandAt(content + [x], calls + [x.call], at + [|content|])
  {
    if x.Call? {
      forall i | 0 <= i < |content + [x]| && (content + [x])[i].Call? ensures i in at + [|content|] {
        if i < |content| { assert i in at; }
      }
    }
  }

  lemma {:induction false} CallsStand(content: seq<Content>) returns (at: seq<nat>)
    ensures StandAt(content, CallsIn(content), at)
  {
    at := [];
    if content != [] {
      var n := |content| - 1;
      at := CallsStand(content[..n]);
      StandMore(content[..n], CallsIn(content[..n]), at, content[n]);
      assert content == content[..n] + [content[n]];
      if content[n].Call? { at := at + [n]; }
    }
  }

  method ExtractToolCalls(m: Message) returns (calls: seq<ToolCall>)
    requires m.Assistant?
    ensures calls == CallsOf(m) && exists at :: StandAt(m.content, calls, at)
  {
    var at := CallsStand(m.content);
    calls := [];
    for i := 0 to |m.content|
      invariant calls == CallsIn(m.content[..i])
    {
      assert m.content[..i + 1][..i] == m.content[..i];
      if m.content[i].Call? { calls := calls + [m.content[i].call]; }
    }
    assert m.content[..|m.content|] == m.content;
  }
}
