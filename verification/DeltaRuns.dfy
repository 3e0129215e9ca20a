/** Runs that bring any given log to the caller without a drop. */
module DeltaRuns {
  import opened Prelude
  import opened DeltaStream

  lemma ExecSnoc(c: Call, acts: seq<Action>, a: Action)
    requires Exec(c, acts).Some? && Enabled(Exec(c, acts).value, a)
    ensures Exec(c, acts + [a]) == Some(Next(c, Exec(c, acts).value, a))
  {
    assert (acts + [a])[..|acts|] == acts;
  }

  lemma Step(c: Call, acts: seq<Action>, s: State, a: Action) returns (acts': seq<Action>, t: State)
    requires Exec(c, acts) == Some(s) && Enabled(s, a)
    ensures t == Next(c, s, a) && Exec(c, acts') == Some(t)
  {
    ExecSnoc(c, acts, a);
    return acts + [a], Next(c, s, a);
  }

  /** The first i lines of the log have been read and forwarded one by one. */
  function Relayed(c: Call, sent: seq<Line>, i: nat, rpc: Rpc, accepted: Option<nat>, seenThen: seq<Delta>): State
    requires i <= |sent|
  {
    var ds := Deltas(c, sent[..i]);
    State(Pipe(sent, i, Idle), Channel(true, [], ds, 0), rpc, Forward(Forwarding, Events(ds)),
          History(0, ds, accepted, seenThen), false, false)
  }

  const UNSENT := Rpc(false, None, Spawned, None)

  lemma {:induction false} WriteAll(c: Call, sent: seq<Line>) returns (acts: seq<Action>)
    ensures Exec(c, acts) == Some(INIT.(pipe := Pipe(sent, 0, Idle)))
  {
    if sent == [] {
      acts := [];
    } else {
      var n := |sent| - 1;
      acts := WriteAll(c, sent[..n]);
      assert sent[..n] + [sent[n]] == sent;
      var s;
      acts, s := Step(c, acts, INIT.(pipe := Pipe(sent[..n], 0, Idle)), Writes(sent[n]));
    }
  }

  lemma WriteAndRegister(c: Call, sent: seq<Line>) returns (acts: seq<Action>)
    ensures Exec(c, acts) == Some(Relayed(c, sent, 0, UNSENT, None, []))
  {
    acts := WriteAll(c, sent);
    var s;
    acts, s := Step(c, acts, INIT.(pipe := Pipe(sent, 0, Idle)), OfForward(Register));
    assert Events([]) == [];
  }

  lemma RelayOne(c: Call, sent: seq<Line>, i: nat, rpc: Rpc, accepted: Option<nat>, seenThen: seq<Delta>, acts0: seq<Action>)
    returns (acts: seq<Action>)
    requires i < |sent| && !rpc.pending && Exec(c, acts0) == Some(Relayed(c, sent, i, rpc, accepted, seenThen))
    ensures Exec(c, acts) == Some(Relayed(c, sent, i + 1, rpc, accepted, seenThen))
  {
    var s := Relayed(c, sent, i, rpc, accepted, seenThen);
    TakeRelayed(c, s);
    MoreDeltas(c, sent, i);
    acts, s := Step(c, acts0, s, OfReader(Take));
    if sent[i].DeltaLine? && sent[i].rid == c.rid {
      acts := PushAndEmit(c, acts, s, sent[i].delta);
    }
  }

  lemma MoreDeltas(c: Call, sent: seq<Line>, i: nat)
    requires i < |sent|
    ensures Deltas(c, sent[..i + 1]) ==
            if sent[i].DeltaLine? && sent[i].rid == c.rid then Deltas(c, sent[..i]) + [sent[i].delta] else Deltas(c, sent[..i])
  {
    assert sent[..i + 1] == sent[..i] + [sent[i]];
    DeltasSnoc(c, sent[..i], sent[i]);
  }

  /** Taking a line while no reply is awaited: a delta of this call comes to hand, anything else is passed over. */
  lemma TakeRelayed(c: Call, s: State)
    requires Enabled(s, OfReader(Take)) && s.fwd.phase == Forwarding && s.chan.registered && !s.rpc.pending
    ensures var line := s.pipe.sent[s.pipe.read];
            NextReader(c, s, Take) ==
            if line.DeltaLine? && line.rid == c.rid
            then s.(pipe := Pipe(s.pipe.sent, s.pipe.read + 1, Holding(line.delta)), hist := s.hist.(seen := s.hist.seen + [line.delta]))
            else s.(pipe := Pipe(s.pipe.sent, s.pipe.read + 1, Idle))
  {}

  /** The delta in the read loop's hand passes through the empty channel. */
  lemma PushAndEmit(c: Call, acts0: seq<Action>, s0: State, d: Delta) returns (acts: seq<Action>)
    requires Exec(c, acts0) == Some(s0) && s0.pipe.reader == Holding(d) && s0.chan.buffer == []
    requires s0.fwd == Forward(Forwarding, Events(s0.chan.pushed))
    ensures Exec(c, acts) ==
            Some(s0.(pipe := s0.pipe.(reader := Idle), chan := s0.chan.(pushed := s0.chan.pushed + [d]),
                     fwd := Forward(Forwarding, Events(s0.chan.pushed + [d]))))
  {
    var s;
    acts, s := Step(c, acts0, s0, OfReader(Push));
    assert s.chan.buffer == [d] && [d][1..] == [];
    acts, s := Step(c, acts, s, OfForward(Emit));
    assert Events(s0.chan.pushed + [d]) == Events(s0.chan.pushed) + [ToEvent(d)];
  }

  lemma {:induction false} Relay(c: Call, sent: seq<Line>, i: nat, n: nat, rpc: Rpc, accepted: Option<nat>, seenThen: seq<Delta>,
                                 acts0: seq<Action>)
    returns (acts: seq<Action>)
    requires i <= n <= |sent| && !rpc.pending && Exec(c, acts0) == Some(Relayed(c, sent, i, rpc, accepted, seenThen))
    ensures Exec(c, acts) == Some(Relayed(c, sent, n, rpc, accepted, seenThen))
    decreases n - i
  {
    acts := acts0;
    if i < n {
      acts := RelayOne(c, sent, i, rpc, accepted, seenThen, acts);
      acts := Relay(c, sent, i + 1, n, rpc, accepted, seenThen, acts);
    }
  }

  /** The reply at k is accepted: every reply before it is read while the request is not yet pending. */
  lemma RelayReply(c: Call, sent: seq<Line>, k: nat) returns (acts: seq<Action>)
    requires k < |sent| && sent[k].ReplyLine? && sent[k].id == c.id
    ensures Exec(c, acts) ==
            Some(Relayed(c, sent, k + 1, Rpc(false, Some(sent[k].ok), Waiting, None), Some(k), Deltas(c, sent[..k])))
  {
    var s := Relayed(c, sent, k, UNSENT, None, []);
    acts := WriteAndRegister(c, sent);
    acts := Relay(c, sent, 0, k, UNSENT, None, [], acts);
    assert sent[..k + 1] == sent[..k] + [sent[k]];
    DeltasSnoc(c, sent[..k], sent[k]);
    acts, s := Step(c, acts, s, OfRequest(Send));
    acts, s := Step(c, acts, s, OfReader(Take));
    acts, s := Step(c, acts, s, OfReader(Answer));
  }

  /** Any log and any of its replies to this call: a run without a drop that forwards every delta and ends with that reply. */
  lemma DeliverAll(c: Call, sent: seq<Line>, k: nat) returns (acts: seq<Action>, s: State)
    requires k < |sent| && sent[k].ReplyLine? && sent[k].id == c.id
    ensures Exec(c, acts) == Some(s)
    ensures s.pipe.sent == sent && s.chan == Channel(false, [], Deltas(c, sent), 0)
    ensures s.hist == History(0, Deltas(c, sent), Some(k), Deltas(c, sent[..k]))
    ensures s.fwd == Forward(Closed(ByResponse(Reply(sent[k].ok))), Events(Deltas(c, sent)) + [ClosingEvent(ByResponse(Reply(sent[k].ok)))])
  {
    var rpc := Rpc(false, Some(sent[k].ok), Waiting, None);
    s := Relayed(c, sent, |sent|, rpc, Some(k), Deltas(c, sent[..k]));
    acts := RelayReply(c, sent, k);
    acts := Relay(c, sent, k + 1, |sent|, rpc, Some(k), Deltas(c, sent[..k]), acts);
    assert sent[..|sent|] == sent;
    acts, s := Step(c, acts, s, OfRequest(GetReply));
    acts, s := Step(c, acts, s, OfForward(GetResponse));
    acts, s := Step(c, acts, s, OfForward(Finish));
  }

  /** Any log at all: a run that forwards every delta and is then cancelled. */
  lemma DeliverAndCancel(c: Call, sent: seq<Line>) returns (acts: seq<Action>, s: State)
    ensures Exec(c, acts) == Some(s)
    ensures s.pipe.sent == sent && s.fwd == Forward(Closed(ByCancel), Events(Deltas(c, sent)) + [ClosingEvent(ByCancel)])
  {
    s := Relayed(c, sent, |sent|, UNSENT, None, []);
    acts := WriteAndRegister(c, sent);
    acts := Relay(c, sent, 0, |sent|, UNSENT, None, [], acts);
    assert sent[..|sent|] == sent;
    acts, s := Step(c, acts, s, Cancel);
    acts, s := Step(c, acts, s, OfForward(OnCancel));
  }
}
