/**
 What executeTools returns and when it cancels the tools that still run, in terms of what happened in the run alone:
 which tools returned what, which workers bailed out, and which of them were heard from.
 */
module ToolResults {
  import opened Prelude
  import opened Conversation
  import opened ToolExecutor
  import ToolSteering

  /** What w's tool came to; nothing if it has not returned, or returned without a result. */
  function Came(made: map<nat, Option<Message>>, w: nat): Option<Message> { if w in made then made[w] else None }

  /** Worker w's state tells whether it bailed out and what its tool returned. */
  ghost predicate Told(c: ToolCall, acts: seq<Action>, w: nat, phase: Phase, made: map<nat, Option<Message>>) {
    && (forall o | ToolReturns(w, o) in acts :: w in made && made[w] == ResultOf(c, o))
    && (w in made ==> exists o :: ToolReturns(w, o) in acts)
    && (Bail(w) in acts ==> w !in made && (phase == Bailing || phase == Exited))
    && (phase == Bailing || (HasSent(phase) && w !in made) ==> Bail(w) in acts)
    && (phase == Start || phase == Running ==> w !in made)
    && (phase.Finishing? ==> w in made && made[w] == phase.result)
  }

  /** What is stored for w, and what the channel holds of it, is what its tool came to. */
  ghost predicate Delivered(ch: seq<Item>, results: seq<Option<Message>>, got: set<nat>, w: nat, made: map<nat, Option<Message>>) {
    && (forall i | 0 <= i < |ch| && ch[i].index == w :: ch[i].result == Came(made, w))
    && w < |results| && results[w] == if w in got then Came(made, w) else None
  }

  ghost predicate Story(b: Batch, acts: seq<Action>, s: State, w: nat) {
    && Shaped(b, s) && w < |b.calls|
    && Told(b.calls[w], acts, w, s.pool.phase[w], s.pool.made)
    && Delivered(s.channel, s.drain.results, s.drain.got, w, s.pool.made)
    && (s.drain.main.Returned? ==> Answer(b, s, w))
    && (s.ctxDone ==> ContextEnds in acts)
    && (s.drain.main.Returned? ==> s.drain.received == |b.calls| || s.ctxDone)
  }

  /** Call w is answered with the result stored for it, or else with the error for a cancelled call. */
  ghost predicate Answer(b: Batch, s: State, w: nat)
    requires s.drain.main.Returned? && |s.drain.results| == |b.calls| && w < |b.calls|
  {
    && |s.drain.main.results| == |b.calls|
    && s.drain.main.results[w] ==
         match s.drain.results[w]
         case Some(r) => r
         case None => ToolResult(b.calls[w].id, b.calls[w].name, "tool execution cancelled", true)
  }

  lemma StoryBegins(b: Batch, w: nat)
    requires w < |b.calls|
    ensures Story(b, [], Init(b), w)
  {}

  // ----- one step -----

  /** An action that is not about w's tool or its bailing out changes nothing of what is told of w. */
  lemma ToldMore(c: ToolCall, acts: seq<Action>, w: nat, phase: Phase, made: map<nat, Option<Message>>, a: Action)
    requires Told(c, acts, w, phase, made) && (a.ToolReturns? ==> a.w != w) && a != Bail(w)
    ensures Told(c, acts + [a], w, phase, made)
  {
    if w in made {
      var o :| ToolReturns(w, o) in acts;
      assert ToolReturns(w, o) in acts + [a];
    }
  }

  lemma ToldOnReturn(c: ToolCall, acts: seq<Action>, w: nat, made: map<nat, Option<Message>>, o: Outcome, steer: seq<Message>)
    requires Told(c, acts, w, Running, made)
    ensures Told(c, acts + [ToolReturns(w, o)], w, Finishing(ResultOf(c, o), steer), made[w := ResultOf(c, o)])
  {
    assert ToolReturns(w, o) in acts + [ToolReturns(w, o)];
  }

  lemma OthersReturn(c: ToolCall, acts: seq<Action>, w: nat, phase: Phase, made: map<nat, Option<Message>>, v: nat, r: Option<Message>)
    requires Told(c, acts, w, phase, made) && v != w
    ensures Told(c, acts, w, phase, made[v := r])
  {}

  lemma ToldKept(b: Batch, acts: seq<Action>, s: State, a: Action, w: nat)
    requires Shaped(b, s) && Enabled(b, s, a) && w < |b.calls| && Told(b.calls[w], acts, w, s.pool.phase[w], s.pool.made)
    ensures Told(b.calls[w], acts + [a], w, Next(b, s, a).pool.phase[w], Next(b, s, a).pool.made)
  {
    var c, phase, made := b.calls[w], s.pool.phase[w], s.pool.made;
    match a
    case ToolReturns(v, o) =>
      if v == w {
        ToldOnReturn(c, acts, w, made, o, if o.Success? then s.steerQ else []);
      } else {
        ToldMore(c, acts, w, phase, made, a);
        OthersReturn(c, acts + [a], w, phase, made, v, ResultOf(b.calls[v], o));
      }
    case Bail(v) => if v != w { ToldMore(c, acts, w, phase, made, a); }
    case Acquire(_) => ToldMore(c, acts, w, phase, made, a);
    case SendResult(_) => ToldMore(c, acts, w, phase, made, a);
    case SendNil(_) => ToldMore(c, acts, w, phase, made, a);
    case Release(_) => ToldMore(c, acts, w, phase, made, a);
    case _ => ToldMore(c, acts, w, phase, made, a);
  }

  /** Items are sent with what the tool came to, and a worker that has sent returns no more. */
  lemma DeliveredKept(b: Batch, acts: seq<Action>, s: State, a: Action, w: nat)
    requires Shaped(b, s) && SendsTracked(s) && Enabled(b, s, a) && w < |b.calls|
    requires Told(b.calls[w], acts, w, s.pool.phase[w], s.pool.made)
    requires Delivered(s.channel, s.drain.results, s.drain.got, w, s.pool.made)
    ensures var t := Next(b, s, a); Delivered(t.channel, t.drain.results, t.drain.got, w, t.pool.made)
  {
    match a
    case Receive => StoreDelivers(s, w);
    case CollectOne => StoreDelivers(s, w);
    case ToolReturns(v, _) => if v == w { NothingSentYet(s, w); }
    case SendResult(v) => SendDelivers(s, w, Item(v, s.pool.phase[v].result, s.pool.phase[v].steer));
    case SendNil(v) => SendDelivers(s, w, Item(v, None, []));
    case Acquire(_) =>
    case Bail(_) =>
    case Release(_) =>
    case _ =>
  }

  lemma SendDelivers(s: State, w: nat, it: Item)
    requires Delivered(s.channel, s.drain.results, s.drain.got, w, s.pool.made)
    requires it.index == w ==> it.result == Came(s.pool.made, w)
    ensures Delivered(s.channel + [it], s.drain.results, s.drain.got, w, s.pool.made)
  {}

  lemma NothingSentYet(s: State, w: nat)
    requires SendsTracked(s) && PhaseIs(s, w, Running)
    ensures w !in s.drain.got && forall i | 0 <= i < |s.channel| :: s.channel[i].index != w
  {
    assert w !in Senders(s.pool.phase);
    forall i | 0 <= i < |s.channel| ensures s.channel[i].index != w {
      assert s.channel[i].index in Indices(s.channel);
    }
  }

  lemma StoreDelivers(s: State, w: nat)
    requires s.channel != [] && s.channel[0].index < |s.drain.results|
    requires Delivered(s.channel, s.drain.results, s.drain.got, w, s.pool.made)
    ensures var d := Store(s.drain, s.channel[0]); Delivered(s.channel[1..], d.results, d.got, w, s.pool.made)
  {}

  lemma StoryKept(b: Batch, acts: seq<Action>, s: State, a: Action, w: nat)
    requires Inv(b, s) && Enabled(b, s, a) && Story(b, acts, s, w)
    ensures Story(b, acts + [a], Next(b, s, a), w)
  {
    NextKeepsInv(b, s, a);
    ToldKept(b, acts, s, a, w);
    DeliveredKept(b, acts, s, a, w);
    EndKept(b, acts, s, a, w);
  }

  lemma EndKept(b: Batch, acts: seq<Action>, s: State, a: Action, w: nat)
    requires Shaped(b, s) && Enabled(b, s, a) && w < |b.calls| && |Next(b, s, a).drain.results| == |b.calls|
    requires s.drain.main.Returned? ==> Answer(b, s, w) && (s.drain.received == |b.calls| || s.ctxDone)
    requires s.ctxDone ==> ContextEnds in acts
    ensures var t := Next(b, s, a);
            && (t.drain.main.Returned? ==> Answer(b, t, w) && (t.drain.received == |b.calls| || t.ctxDone))
            && (t.ctxDone ==> ContextEnds in acts + [a])
  {
    match a
    case CollectStops =>
    case Finish =>
    case Receive =>
    case CollectOne =>
    case _ =>
  }

  lemma {:induction false} ReachableStory(b: Batch, acts: seq<Action>, s: State, w: nat)
    requires Reaches(b, acts, s) && w < |b.calls|
    ensures Story(b, acts, s, w)
  {
    if acts == [] {
      StoryBegins(b, w);
    } else {
      var mid :| Reaches(b, acts[..|acts| - 1], mid) && Shaped(b, mid) && Enabled(b, mid, acts[|acts| - 1]) &&
                 s == Next(b, mid, acts[|acts| - 1]);
      ReachableStory(b, acts[..|acts| - 1], mid, w);
      StepStory(b, acts[..|acts| - 1], mid, acts[|acts| - 1], s, w);
      assert acts == acts[..|acts| - 1] + [acts[|acts| - 1]];
    }
  }

  lemma StepStory(b: Batch, front: seq<Action>, mid: State, a: Action, s: State, w: nat)
    requires Reaches(b, front, mid) && Shaped(b, mid) && Enabled(b, mid, a) && s == Next(b, mid, a) && Story(b, front, mid, w)
    ensures Story(b, front + [a], s, w)
  {
    ReachableInv(b, front, mid);
    StoryKept(b, front, mid, a, w);
  }

  // ----- main results -----

  /** What a tool returned, as a message: its text under the call's id and name, marked as an error or not. */
  ghost predicate Answers(c: ToolCall, o: Outcome, r: Message) {
    match o
    case Success(t) => r == ToolResult(c.id, c.name, t, false)
    case Failure(t) => r == ToolResult(c.id, c.name, t, true)
    case Aborted => false
  }

  ghost predicate Cancelled(c: ToolCall, r: Message) { r == ToolResult(c.id, c.name, "tool execution cancelled", true) }

  /** Worker i was not heard from, bailed out or was aborted. */
  ghost predicate Silent(acts: seq<Action>, s: State, i: nat) {
    i !in s.drain.got || Bail(i) in acts || ToolReturns(i, Aborted) in acts
  }

  /**
   Whatever the interleaving, call i is answered by what its tool returned if its worker was heard from with a result,
   and with the cancellation error in every other case. Each tool returns once.
   */
  lemma ResultIsWhatReturned(b: Batch, acts: seq<Action>, s: State, i: nat)
    requires Reaches(b, acts, s) && s.drain.main.Returned? && i < |b.calls|
    ensures |s.drain.main.results| == |b.calls|
    ensures forall o | ToolReturns(i, o) in acts && o != Aborted && i in s.drain.got ::
              Answers(b.calls[i], o, s.drain.main.results[i])
    ensures Silent(acts, s, i) ==> Cancelled(b.calls[i], s.drain.main.results[i])
    ensures !Silent(acts, s, i) ==>
              exists o :: ToolReturns(i, o) in acts && Answers(b.calls[i], o, s.drain.main.results[i])
  {
    ReachableStory(b, acts, s, i);
    ReachableInv(b, acts, s);
    if i in s.drain.got { HeardHasSent(s, i); }
  }

  lemma HeardHasSent(s: State, i: nat)
    requires SendsTracked(s) && i in s.drain.got
    ensures i < |s.pool.phase| && HasSent(s.pool.phase[i])
  {
    assert i in Senders(s.pool.phase);
  }

  /** Unless the caller's context ends every worker is heard from, so every tool that returned a result is answered by it. */
  lemma UncancelledResults(b: Batch, acts: seq<Action>, s: State, i: nat, o: Outcome)
    requires Reaches(b, acts, s) && s.drain.main.Returned? && i < |b.calls| && ContextEnds !in acts
    requires ToolReturns(i, o) in acts && o != Aborted
    ensures |s.drain.main.results| == |b.calls| && Answers(b.calls[i], o, s.drain.main.results[i])
  {
    ReachableStory(b, acts, s, i);
    ReachableInv(b, acts, s);
    AllHeard(b, s);
    ResultIsWhatReturned(b, acts, s, i);
  }

  lemma AllHeard(b: Batch, s: State)
    requires Inv(b, s) && s.drain.received == |b.calls|
    ensures forall i: nat | i < |b.calls| :: i in s.drain.got
  {
    var all := Below(|b.calls|);
    assert s.drain.got <= Senders(s.pool.phase) <= all;
    SubsetSize(s.drain.got, all);
  }

  // ----- when the other tools are cancelled -----

  /** Hearing from worker w while draining cancels the tools: it brings an error, or steering messages. */
  ghost predicate Rouses(p: Pool, w: nat) { IsError(Came(p.made, w)) || (w < |p.taken| && p.taken[w] != []) }

  ghost predicate Roused(p: Pool, heard: seq<nat>) { exists i {:trigger heard[i]} | 0 <= i < |heard| :: Rouses(p, heard[i]) }

  ghost predicate CancelState(acts: seq<Action>, s: State) {
    && (s.ctxDone <==> ContextEnds in acts)
    && (s.toolDone <==> s.ctxDone || s.drain.main.Returned? || Roused(s.pool, s.drain.heard))
  }

  lemma RousedSnoc(p: Pool, heard: seq<nat>, w: nat)
    ensures Roused(p, heard + [w]) <==> Roused(p, heard) || Rouses(p, w)
  {
    if Roused(p, heard) {
      var i :| 0 <= i < |heard| && Rouses(p, heard[i]);
      assert (heard + [w])[i] == heard[i];
    }
    if Rouses(p, w) { assert (heard + [w])[|heard|] == w; }
    if Roused(p, heard + [w]) && !Rouses(p, w) {
      var i :| 0 <= i < |heard + [w]| && Rouses(p, (heard + [w])[i]);
      assert (heard + [w])[i] == heard[i];
    }
  }

  lemma ReceiveCancels(b: Batch, acts: seq<Action>, s: State)
    requires ToolSteering.SteerOk(b, s) && Enabled(b, s, Receive) && CancelState(acts, s)
    requires Delivered(s.channel, s.drain.results, s.drain.got, s.channel[0].index, s.pool.made)
    ensures CancelState(acts + [Receive], NextReceive(s))
  {
    var w := s.channel[0].index;
    RousedSnoc(s.pool, s.drain.heard, w);
    ToolSteering.FirstBatchMeaning(s.pool.taken, s.drain.heard);
    assert ToolSteering.ItemFits(s.pool, s.channel[0]) && s.channel[0].result == Came(s.pool.made, w);
    if s.drain.steering.Some? {
      var i :| 0 <= i < |s.drain.heard| && s.pool.taken[s.drain.heard[i]] != [];
      assert Rouses(s.pool, s.drain.heard[i]);
    }
  }

  /** A worker that is heard from has sent, so what the others do does not change what it brought. */
  lemma SameRoused(s: State, heard: seq<nat>, p: Pool, w: nat)
    requires w !in heard && |p.taken| == |s.pool.taken|
    requires forall v | v != w :: Came(p.made, v) == Came(s.pool.made, v)
    requires forall v: nat | v != w && v < |p.taken| :: p.taken[v] == s.pool.taken[v]
    ensures Roused(p, heard) <==> Roused(s.pool, heard)
  {
    assert forall i | 0 <= i < |heard| :: heard[i] in heard && (Rouses(p, heard[i]) <==> Rouses(s.pool, heard[i]));
  }

  lemma CancelStateKept(b: Batch, acts: seq<Action>, s: State, a: Action)
    requires ToolSteering.SteerOk(b, s) && Enabled(b, s, a) && CancelState(acts, s)
    requires a.Receive? ==> Delivered(s.channel, s.drain.results, s.drain.got, s.channel[0].index, s.pool.made)
    ensures CancelState(acts + [a], Next(b, s, a))
  {
    match a
    case Receive => ReceiveCancels(b, acts, s);
    case ToolReturns(w, _) =>
      assert w !in s.drain.heard;
      SameRoused(s, s.drain.heard, Next(b, s, a).pool, w);
    case Acquire(_) => assert Roused(Next(b, s, a).pool, s.drain.heard) == Roused(s.pool, s.drain.heard);
    case Bail(_) => assert Roused(Next(b, s, a).pool, s.drain.heard) == Roused(s.pool, s.drain.heard);
    case SendResult(_) => assert Roused(Next(b, s, a).pool, s.drain.heard) == Roused(s.pool, s.drain.heard);
    case SendNil(_) => assert Roused(Next(b, s, a).pool, s.drain.heard) == Roused(s.pool, s.drain.heard);
    case Release(_) => assert Roused(Next(b, s, a).pool, s.drain.heard) == Roused(s.pool, s.drain.heard);
    case _ =>
  }

  lemma {:induction false} ReachableCancelState(b: Batch, acts: seq<Action>, s: State)
    requires Reaches(b, acts, s)
    ensures CancelState(acts, s)
  {
    if acts != [] {
      var front, a := acts[..|acts| - 1], acts[|acts| - 1];
      var mid :| Reaches(b, front, mid) && Shaped(b, mid) && Enabled(b, mid, a) && s == Next(b, mid, a);
      ReachableCancelState(b, front, mid);
      StepCancelState(b, front, mid, a);
      assert acts == front + [a];
    }
  }

  lemma StepCancelState(b: Batch, front: seq<Action>, mid: State, a: Action)
    requires Reaches(b, front, mid) && Shaped(b, mid) && Enabled(b, mid, a) && CancelState(front, mid)
    ensures CancelState(front + [a], Next(b, mid, a))
  {
    ToolSteering.ReachableSteer(b, front, mid);
    if a.Receive? { ReachableStory(b, front, mid, mid.channel[0].index); }
    CancelStateKept(b, front, mid, a);
  }

  /**
   Until the call returns, the tools are cancelled if and only if the caller's context has ended, or a worker was heard
   from, while draining, whose tool failed or brought steering messages.
   */
  lemma ToolsAreCancelledIff(b: Batch, acts: seq<Action>, s: State)
    requires Reaches(b, acts, s) && !s.drain.main.Returned?
    ensures ToolSteering.Within(s.drain.heard, |s.pool.taken|) && |s.pool.taken| == |b.calls|
    ensures s.toolDone <==>
            ContextEnds in acts ||
            exists i {:trigger s.drain.heard[i]} | 0 <= i < |s.drain.heard| ::
              (exists t :: ToolReturns(s.drain.heard[i], Failure(t)) in acts) || s.pool.taken[s.drain.heard[i]] != []
  {
    ReachableCancelState(b, acts, s);
    ToolSteering.ReachableSteer(b, acts, s);
    forall i | 0 <= i < |s.drain.heard|
      ensures Rouses(s.pool, s.drain.heard[i]) <==>
              (exists t :: ToolReturns(s.drain.heard[i], Failure(t)) in acts) || s.pool.taken[s.drain.heard[i]] != []
    {
      ReachableStory(b, acts, s, s.drain.heard[i]);
      ErrorIffFailed(b.calls[s.drain.heard[i]], acts, s.drain.heard[i], s.pool.phase[s.drain.heard[i]], s.pool.made);
    }
  }

  lemma ErrorIffFailed(c: ToolCall, acts: seq<Action>, w: nat, phase: Phase, made: map<nat, Option<Message>>)
    requires Told(c, acts, w, phase, made)
    ensures IsError(Came(made, w)) <==> exists t :: ToolReturns(w, Failure(t)) in acts
  {
    if IsError(Came(made, w)) {
      var o :| ToolReturns(w, o) in acts;
      assert o.Failure? && ToolReturns(w, Failure(o.text)) in acts;
    }
  }
}
