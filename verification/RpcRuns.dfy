/** What can happen to a request: from any point of any run each outcome is reached, and a reply gets through. */
module RpcRuns {
  import opened Prelude
  import opened RpcCorrelation

  /** The run goes on from acts to t. */
  predicate Continues(side: Side, acts: seq<Action>, more: seq<Action>, t: State) {
    acts <= more && Exec(side, more) == Some(t)
  }

  lemma Step(side: Side, start: seq<Action>, acts: seq<Action>, s: State, a: Action) returns (acts': seq<Action>, t: State)
    requires Continues(side, start, acts, s) && Enabled(side, s, a)
    ensures Continues(side, start, acts', t) && t == Next(side, s, a)
  {
    acts', t := acts + [a], Next(side, s, a);
    assert acts'[..|acts|] == acts;
  }

  /** Caller k has sent its request under this id, which nothing has answered, and the read loop is free. */
  predicate Asking(s: State, k: nat, id: nat) {
    && k in s.callers && s.callers[k] == Waiting(id) && id in s.pending && Chan(s, id) == [] && s.reader == Idle
  }

  /** A new caller can always send a request; it carries the next number of the counter. */
  lemma Ask(side: Side, acts: seq<Action>, k: nat) returns (more: seq<Action>, s: State)
    requires Exec(side, acts).Some? && k !in Exec(side, acts).value.callers
    ensures Continues(side, acts, more, s) && Asking(s, k, Exec(side, acts).value.nextId + 1)
    ensures s.closed == Exec(side, acts).value.closed
  {
    more, s := Filing(side, acts, k);
    more, s := Step(side, acts, more, s, Write(k));
  }

  lemma Filing(side: Side, acts: seq<Action>, k: nat) returns (more: seq<Action>, s: State)
    requires Exec(side, acts).Some? && k !in Exec(side, acts).value.callers
    ensures Continues(side, acts, more, s) && s.closed == Exec(side, acts).value.closed && s.reader == Idle
    ensures var id := Exec(side, acts).value.nextId + 1;
            k in s.callers && s.callers[k] == Filed(id) && id in s.pending && Chan(s, id) == []
  {
    more, s := acts, Exec(side, acts).value;
    if s.reader.Delivering? {
      ReadLoopNeverBlocks(side, acts);
      more, s := Step(side, acts, more, s, Deliver);
    }
    more, s := Step(side, acts, more, s, Draw(k));
    more, s := Step(side, acts, more, s, File(k));
  }

  /** Whatever happened before: a new request can be answered, and then its caller returns with that very answer. */
  lemma ReplyGetsThrough(side: Side, acts: seq<Action>, k: nat, body: string) returns (more: seq<Action>, t: State)
    requires Exec(side, acts).Some? && k !in Exec(side, acts).value.callers
    ensures Continues(side, acts, more, t)
    ensures var id := Exec(side, acts).value.nextId + 1;
            k in t.callers && t.callers[k] == Done(id, Got(Msg(id, body))) && id !in t.pending && Chan(t, id) == []
  {
    var s;
    more, s := Ask(side, acts, k);
    more, t := Step(side, acts, more, s, ReadLine(Msg(Exec(side, acts).value.nextId + 1, body)));
    more, t := Step(side, acts, more, t, Deliver);
    more, t := Step(side, acts, more, t, Receive(k));
  }

  /** From the start: the first request carries the number 1 and gets its answer. */
  lemma FirstReply(side: Side, body: string) returns (acts: seq<Action>, t: State)
    ensures Exec(side, acts) == Some(t) && 0 in t.callers && t.callers[0] == Done(1, Got(Msg(1, body)))
  {
    assert Exec(side, []) == Some(INIT);
    acts, t := ReplyGetsThrough(side, [], 0, body);
  }

  /** On the host a cancelled request returns at once, and a reply that comes later is dropped. */
  lemma HostCancels(acts: seq<Action>, k: nat, body: string) returns (more: seq<Action>, t: State)
    requires Exec(HostSide, acts).Some? && k !in Exec(HostSide, acts).value.callers
    ensures Continues(HostSide, acts, more, t)
    ensures var id := Exec(HostSide, acts).value.nextId + 1;
            && k in t.callers && t.callers[k] == Done(id, CancelledErr) && id !in t.pending
            && t.log.lines != [] && t.log.lines[|t.log.lines| - 1] == Msg(id, body) && t.reader == Idle && Chan(t, id) == []
  {
    var s;
    more, s := Ask(HostSide, acts, k);
    more, t := Step(HostSide, acts, more, s, Cancel(k));
    more, t := Step(HostSide, acts, more, t, ReadLine(Msg(Exec(HostSide, acts).value.nextId + 1, body)));
  }

  /** In the SDK a reply that was read before the cancellation still reaches its caller ... */
  lemma GraceDelivers(acts: seq<Action>, k: nat, body: string) returns (more: seq<Action>, t: State)
    requires Exec(SdkSide, acts).Some? && k !in Exec(SdkSide, acts).value.callers
    ensures Continues(SdkSide, acts, more, t)
    ensures var id := Exec(SdkSide, acts).value.nextId + 1;
            k in t.callers && t.callers[k] == Done(id, Got(Msg(id, body))) && id !in t.pending
  {
    var s;
    more, s := Ask(SdkSide, acts, k);
    more, t := Step(SdkSide, acts, more, s, ReadLine(Msg(Exec(SdkSide, acts).value.nextId + 1, body)));
    more, t := Step(SdkSide, acts, more, t, Cancel(k));
    more, t := Step(SdkSide, acts, more, t, Deliver);
    more, t := Step(SdkSide, acts, more, t, GraceReceive(k));
  }

  /** ... and without one it returns the cancellation when the grace period is over; a reply read during it is dropped. */
  lemma GraceExpiresEmpty(acts: seq<Action>, k: nat, body: string) returns (more: seq<Action>, t: State)
    requires Exec(SdkSide, acts).Some? && k !in Exec(SdkSide, acts).value.callers
    ensures Continues(SdkSide, acts, more, t)
    ensures var id := Exec(SdkSide, acts).value.nextId + 1;
            && k in t.callers && t.callers[k] == Done(id, CancelledErr) && id !in t.pending
            && t.log.lines != [] && t.log.lines[|t.log.lines| - 1] == Msg(id, body) && t.reader == Idle && Chan(t, id) == []
  {
    var s;
    more, s := Ask(SdkSide, acts, k);
    more, t := Step(SdkSide, acts, more, s, Cancel(k));
    more, t := Step(SdkSide, acts, more, t, ReadLine(Msg(Exec(SdkSide, acts).value.nextId + 1, body)));
    more, t := Step(SdkSide, acts, more, t, GraceExpires(k));
  }

  /** On the host a request that cannot be written fails at once, and one that waits fails when the host closes. */
  lemma HostFails(acts: seq<Action>, k: nat) returns (more: seq<Action>, t: State, later: seq<Action>, u: State)
    requires Exec(HostSide, acts).Some? && k !in Exec(HostSide, acts).value.callers
    ensures Continues(HostSide, acts, more, t) && Continues(HostSide, acts, later, u)
    ensures var id := Exec(HostSide, acts).value.nextId + 1;
            && k in t.callers && t.callers[k] == Done(id, SendErr) && id !in t.pending
            && k in u.callers && u.callers[k] == Done(id, ClosedErr) && id !in u.pending && u.closed
  {
    more, t := Filing(HostSide, acts, k);
    more, t := Step(HostSide, acts, more, t, WriteFails(k));
    later, u := Ask(HostSide, acts, k);
    later, u := Step(HostSide, acts, later, u, Close);
    later, u := Step(HostSide, acts, later, u, SeeClosed(k));
  }

  /** How many numbers were drawn, for requests and for streams. */
  function DrawsIn(acts: seq<Action>): nat {
    if acts == [] then 0
    else DrawsIn(acts[..|acts| - 1]) + if acts[|acts| - 1].Draw? || acts[|acts| - 1].DrawOther? then 1 else 0
  }

  /** The counter goes up by one each time a number is drawn, so no number is drawn twice. */
  lemma {:induction false} CounterCounts(side: Side, acts: seq<Action>)
    requires Exec(side, acts).Some?
    ensures Exec(side, acts).value.nextId == DrawsIn(acts)
  {
    if acts != [] { CounterCounts(side, acts[..|acts| - 1]); }
  }
}
