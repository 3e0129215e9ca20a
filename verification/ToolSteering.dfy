/**
 What becomes of the steering messages that the tools of one batch take from the queue: a tool that succeeds
 empties the queue and sends the messages along with its result, but only one such batch is kept.
 */
module ToolSteering {
  import opened Prelude
  import opened Conversation
  import opened ToolExecutor

  /** All the batches, in call order. */
  function Flatten(batches: seq<seq<Message>>): seq<Message> {
    if batches == [] then [] else Flatten(batches[..|batches| - 1]) + batches[|batches| - 1]
  }

  /** Everything the workers have taken from the queue, and what the draining loop will hand on. */
  function Dequeued(s: State): seq<Message> { Flatten(s.pool.taken) }
  function Kept(s: State): seq<Message> { if s.drain.steering.Some? then s.drain.steering.value else [] }

  /** The i-th worker heard from while draining is the first of them to bring a nonempty batch. */
  predicate FirstHeard(taken: seq<seq<Message>>, heard: seq<nat>, i: nat)
    requires Within(heard, |taken|)
  {
    i < |heard| && taken[heard[i]] != [] && forall j | 0 <= j < i :: taken[heard[j]] == []
  }

  predicate Within(heard: seq<nat>, n: nat) { forall i | 0 <= i < |heard| :: heard[i] < n }

  /** The batch of the first worker in `heard` that brought a nonempty one. */
  function FirstBatch(taken: seq<seq<Message>>, heard: seq<nat>): Option<seq<Message>>
    requires Within(heard, |taken|)
  {
    if heard == [] then None
    else
      var n := |heard| - 1;
      if FirstBatch(taken, heard[..n]).Some? then FirstBatch(taken, heard[..n])
      else if taken[heard[n]] != [] then Some(taken[heard[n]])
      else None
  }

  lemma {:induction false} FirstBatchMeaning(taken: seq<seq<Message>>, heard: seq<nat>)
    requires Within(heard, |taken|)
    ensures FirstBatch(taken, heard) == None <==> forall i | 0 <= i < |heard| :: taken[heard[i]] == []
    ensures forall i: nat | FirstHeard(taken, heard, i) :: FirstBatch(taken, heard) == Some(taken[heard[i]])
  {
    if heard != [] {
      var n := |heard| - 1;
      var front := heard[..n];
      FirstBatchMeaning(taken, front);
      forall i: nat | FirstHeard(taken, heard, i) ensures FirstBatch(taken, heard) == Some(taken[heard[i]]) {
        if i < n {
          assert FirstHeard(taken, front, i);
        } else {
          assert forall j | 0 <= j < n :: front[j] == heard[j];
        }
      }
      assert forall i | 0 <= i < n :: front[i] == heard[i];
    }
  }

  lemma {:induction false} FirstBatchFrame(taken: seq<seq<Message>>, heard: seq<nat>, w: nat, batch: seq<Message>)
    requires Within(heard, |taken|) && w < |taken| && w !in heard
    ensures FirstBatch(taken[w := batch], heard) == FirstBatch(taken, heard)
  {
    if heard != [] {
      assert heard[|heard| - 1] in heard;
      FirstBatchFrame(taken, heard[..|heard| - 1], w, batch);
    }
  }

  // ----- which batch is kept -----

  predicate BatchFits(p: Phase, batch: seq<Message>) {
    match p
    case Finishing(_, steer) => steer == batch
    case Releasing => true
    case Exited => true
    case _ => batch == []
  }

  predicate ItemFits(p: Pool, it: Item)
    requires |p.phase| == |p.taken|
  {
    it.index < |p.phase| && HasSent(p.phase[it.index]) && it.steer == p.taken[it.index]
  }

  ghost predicate SteerOk(b: Batch, s: State) {
    && Shaped(b, s)
    && (forall w | 0 <= w < |b.calls| :: BatchFits(s.pool.phase[w], s.pool.taken[w]))
    && (forall i | 0 <= i < |s.channel| :: ItemFits(s.pool, s.channel[i]))
    && (forall i | 0 <= i < |s.drain.heard| :: s.drain.heard[i] < |b.calls| && HasSent(s.pool.phase[s.drain.heard[i]]))
    && s.drain.steering == FirstBatch(s.pool.taken, s.drain.heard)
  }

  lemma PhaseKeepsSteer(b: Batch, s: State, w: nat, q: Phase, sem: nat)
    requires SteerOk(b, s) && w < |b.calls|
    requires BatchFits(q, s.pool.taken[w]) && (HasSent(s.pool.phase[w]) ==> HasSent(q))
    ensures SteerOk(b, s.(pool := s.pool.(phase := s.pool.phase[w := q], sem := sem)))
  {
    var t := s.(pool := s.pool.(phase := s.pool.phase[w := q], sem := sem));
    forall i | 0 <= i < |t.channel| ensures ItemFits(t.pool, t.channel[i]) {
      assert ItemFits(s.pool, s.channel[i]);
    }
  }

  lemma SendKeepsSteer(b: Batch, s: State, w: nat, q: Phase, it: Item)
    requires SteerOk(b, s) && w < |b.calls| && HasSent(q) && it.index == w && it.steer == s.pool.taken[w]
    ensures SteerOk(b, s.(pool := SetPhase(s.pool, w, q), channel := s.channel + [it]))
  {
    PhaseKeepsSteer(b, s, w, q, s.pool.sem);
    var p := s.(pool := SetPhase(s.pool, w, q));
    var t := p.(channel := s.channel + [it]);
    forall i | 0 <= i < |t.channel| ensures ItemFits(t.pool, t.channel[i]) {
      if i < |s.channel| { assert ItemFits(p.pool, s.channel[i]); }
    }
  }

  lemma ReturnKeepsSteer(b: Batch, s: State, w: nat, r: Option<Message>, steer: seq<Message>, q: seq<Message>)
    requires SteerOk(b, s) && PhaseIs(s, w, Running)
    ensures SteerOk(b, s.(pool := OnReturn(s.pool, w, r, steer), steerQ := q))
  {
    var t := s.(pool := OnReturn(s.pool, w, r, steer), steerQ := q);
    forall i | 0 <= i < |t.channel| ensures ItemFits(t.pool, t.channel[i]) {
      assert ItemFits(s.pool, s.channel[i]);
    }
    FirstBatchFrame(s.pool.taken, s.drain.heard, w, steer);
  }

  lemma WorkerKeepsSteer(b: Batch, s: State, a: Action)
    requires SteerOk(b, s) && Enabled(b, s, a)
    requires a.Acquire? || a.Bail? || a.ToolReturns? || a.SendResult? || a.SendNil? || a.Release?
    ensures SteerOk(b, NextWorker(b, s, a))
  {
    match a
    case Acquire(w) => PhaseKeepsSteer(b, s, w, Running, s.pool.sem + 1);
    case Bail(w) => PhaseKeepsSteer(b, s, w, Bailing, s.pool.sem);
    case ToolReturns(w, o) =>
      ReturnKeepsSteer(b, s, w, ResultOf(b.calls[w], o), if o.Success? then s.steerQ else [], if o.Success? then [] else s.steerQ);
    case SendResult(w) => SendKeepsSteer(b, s, w, Releasing, Item(w, s.pool.phase[w].result, s.pool.phase[w].steer));
    case SendNil(w) => SendKeepsSteer(b, s, w, Exited, Item(w, None, []));
    case Release(w) => PhaseKeepsSteer(b, s, w, Exited, s.pool.sem - 1);
  }

  lemma TakeKeepsSteer(b: Batch, s: State)
    requires SteerOk(b, s) && s.channel != []
    ensures SteerOk(b, s.(channel := s.channel[1..], drain := Store(s.drain, s.channel[0])))
    ensures SteerOk(b, NextReceive(s))
  {
    var rest := s.channel[1..];
    assert ItemFits(s.pool, s.channel[0]);
    forall i | 0 <= i < |rest| ensures ItemFits(s.pool, rest[i]) {
      assert rest[i] == s.channel[i + 1];
    }
    assert (s.drain.heard + [s.channel[0].index])[..|s.drain.heard|] == s.drain.heard;
  }

  lemma StepKeepsSteer(b: Batch, s: State, a: Action)
    requires SteerOk(b, s) && Enabled(b, s, a)
    ensures SteerOk(b, Next(b, s, a))
  {
    match a
    case Receive => TakeKeepsSteer(b, s);
    case CollectOne => TakeKeepsSteer(b, s);
    case SteerArrives(_) =>
    case ContextEnds =>
    case SeeToolDone =>
    case CollectStops =>
    case Finish =>
    case _ => WorkerKeepsSteer(b, s, a);
  }

  lemma {:induction false} ReachableSteer(b: Batch, acts: seq<Action>, s: State)
    requires Reaches(b, acts, s)
    ensures SteerOk(b, s)
  {
    if acts != [] {
      var front, a := acts[..|acts| - 1], acts[|acts| - 1];
      var mid :| Reaches(b, front, mid) && Shaped(b, mid) && Enabled(b, mid, a) && s == Next(b, mid, a);
      ReachableSteer(b, front, mid);
      StepKeepsSteer(b, mid, a);
    }
  }

  /**
   What executeTools hands on is the first nonempty batch it heard of while draining. Every other batch is lost:
   the later ones, and all those that arrive while it only collects.
   */
  lemma KeptIsFirstHeard(b: Batch, acts: seq<Action>, s: State)
    requires Reaches(b, acts, s)
    ensures Within(s.drain.heard, |s.pool.taken|)
    ensures s.drain.steering == None <==> forall i | 0 <= i < |s.drain.heard| :: s.pool.taken[s.drain.heard[i]] == []
    ensures forall i: nat | FirstHeard(s.pool.taken, s.drain.heard, i) :: s.drain.steering == Some(s.pool.taken[s.drain.heard[i]])
  {
    ReachableSteer(b, acts, s);
    FirstBatchMeaning(s.pool.taken, s.drain.heard);
  }

  // ----- no message is lost or doubled before it is dequeued -----

  function Arrivals(acts: seq<Action>): seq<Message> {
    if acts == [] then []
    else if acts[|acts| - 1].SteerArrives? then Arrivals(acts[..|acts| - 1]) + [acts[|acts| - 1].msg]
    else Arrivals(acts[..|acts| - 1])
  }

  lemma {:induction false} FlattenAfter(batches: seq<seq<Message>>, w: nat, batch: seq<Message>)
    requires w < |batches| && batches[w] == []
    ensures multiset(Flatten(batches[w := batch])) == multiset(Flatten(batches)) + multiset(batch)
  {
    var n := |batches| - 1;
    if w < n {
      FlattenAfter(batches[..n], w, batch);
      assert batches[w := batch][..n] == batches[..n][w := batch];
    } else {
      assert batches[w := batch][..n] == batches[..n];
    }
  }

  lemma {:induction false} FlattenEmpty(n: nat)
    ensures Flatten(seq(n, _ => [])) == []
  {
    if n > 0 {
      FlattenEmpty(n - 1);
      assert seq<seq<Message>>(n, _ => [])[..n - 1] == seq(n - 1, _ => []);
    }
  }

  /** Every message that arrived is still in the queue or was dequeued by exactly one worker. */
  lemma {:induction false} ArrivalsAreQueuedOrDequeued(b: Batch, acts: seq<Action>, s: State)
    requires Reaches(b, acts, s)
    ensures multiset(Arrivals(acts)) == multiset(s.steerQ) + multiset(Dequeued(s))
  {
    if acts == [] {
      FlattenEmpty(|b.calls|);
    } else {
      var front, a := acts[..|acts| - 1], acts[|acts| - 1];
      var mid :| Reaches(b, front, mid) && Shaped(b, mid) && Enabled(b, mid, a) && s == Next(b, mid, a);
      ArrivalsAreQueuedOrDequeued(b, front, mid);
      ReachableSteer(b, front, mid);
      StepConserves(b, mid, a);
    }
  }

  function InHand(s: State): multiset<Message> { multiset(s.steerQ) + multiset(Dequeued(s)) }

  lemma ReturnConserves(s: State, w: nat, r: Option<Message>)
    requires w < |s.pool.phase| == |s.pool.taken| && s.pool.taken[w] == []
    ensures InHand(s.(pool := OnReturn(s.pool, w, r, s.steerQ), steerQ := [])) == InHand(s)
    ensures InHand(s.(pool := OnReturn(s.pool, w, r, []))) == InHand(s)
  {
    FlattenAfter(s.pool.taken, w, s.steerQ);
    FlattenAfter(s.pool.taken, w, []);
  }

  lemma StepConserves(b: Batch, s: State, a: Action)
    requires SteerOk(b, s) && Enabled(b, s, a)
    ensures InHand(Next(b, s, a)) == if a.SteerArrives? then InHand(s) + multiset{a.msg} else InHand(s)
  {
    match a
    case ToolReturns(w, o) => ReturnConserves(s, w, ResultOf(b.calls[w], o));
    case SteerArrives(_) =>
    case ContextEnds =>
    case Acquire(_) =>
    case Bail(_) =>
    case SendResult(_) =>
    case SendNil(_) =>
    case Release(_) =>
    case Receive =>
    case SeeToolDone =>
    case CollectOne =>
    case CollectStops =>
    case Finish =>
  }

  lemma {:induction false} BatchIsPart(batches: seq<seq<Message>>, w: nat)
    requires w < |batches|
    ensures |batches[w]| <= |Flatten(batches)|
  {
    var n := |batches| - 1;
    if w < n { BatchIsPart(batches[..n], w); }
  }

  lemma {:induction false} TwoBatchesAreMore(batches: seq<seq<Message>>, w: nat, v: nat)
    requires w < v < |batches|
    ensures |batches[w]| + |batches[v]| <= |Flatten(batches)|
  {
    var n := |batches| - 1;
    if v < n { TwoBatchesAreMore(batches[..n], w, v); } else { BatchIsPart(batches[..n], w); }
  }

  lemma {:induction false} OnlyBatch(batches: seq<seq<Message>>, w: nat)
    requires w < |batches| && forall v | 0 <= v < |batches| && v != w :: batches[v] == []
    ensures Flatten(batches) == batches[w]
  {
    var n := |batches| - 1;
    if w < n { OnlyBatch(batches[..n], w); } else { AllEmpty(batches[..n]); }
  }

  lemma {:induction false} AllEmpty(batches: seq<seq<Message>>)
    ensures Flatten(batches) == [] <==> forall v | 0 <= v < |batches| :: batches[v] == []
  {
    if batches != [] {
      AllEmpty(batches[..|batches| - 1]);
      assert forall v | 0 <= v < |batches| - 1 :: batches[..|batches| - 1][v] == batches[v];
    }
  }

  /** What is handed on was once steered, whatever else the workers did. */
  lemma KeptArrived(b: Batch, acts: seq<Action>, s: State, m: Message)
    requires Reaches(b, acts, s) && m in Kept(s)
    ensures m in Dequeued(s) && SteerArrives(m) in acts
  {
    KeptIsDequeued(b, acts, s, m);
    ArrivalsAreQueuedOrDequeued(b, acts, s);
    PartOfSum(Arrivals(acts), s.steerQ, Dequeued(s), m);
    ArrivalHas(acts, m);
  }

  lemma KeptIsDequeued(b: Batch, acts: seq<Action>, s: State, m: Message)
    requires Reaches(b, acts, s) && m in Kept(s)
    ensures m in Dequeued(s)
  {
    KeptIsFirstHeard(b, acts, s);
    var i := FirstHeardIndex(s.pool.taken, s.drain.heard);
    BatchHas(s.pool.taken, s.drain.heard[i], m);
  }

  lemma PartOfSum(all: seq<Message>, xs: seq<Message>, ys: seq<Message>, m: Message)
    requires multiset(all) == multiset(xs) + multiset(ys) && m in ys
    ensures m in all
  {
    assert m in multiset(ys);
    assert m in multiset(all);
  }

  lemma {:induction false} BatchHas(batches: seq<seq<Message>>, w: nat, m: Message)
    requires w < |batches| && m in batches[w]
    ensures m in Flatten(batches)
  {
    if w < |batches| - 1 { BatchHas(batches[..|batches| - 1], w, m); }
  }

  lemma {:induction false} ArrivalHas(acts: seq<Action>, m: Message)
    requires m in Arrivals(acts)
    ensures SteerArrives(m) in acts
  {
    var n := |acts| - 1;
    if m in Arrivals(acts[..n]) { ArrivalHas(acts[..n], m); } else { assert acts[n] == SteerArrives(m); }
  }

  lemma FirstHeardIndex(taken: seq<seq<Message>>, heard: seq<nat>) returns (i: nat)
    requires Within(heard, |taken|) && exists k :: 0 <= k < |heard| && taken[heard[k]] != []
    ensures FirstHeard(taken, heard, i)
  {
    i := 0;
    while taken[heard[i]] == []
      invariant i < |heard| && forall j | 0 <= j < i :: taken[heard[j]] == []
      decreases |heard| - i
    {
      i := i + 1;
    }
  }

  /** Nothing that was dequeued is lost if and only if no worker but the first one heard brought a batch. */
  lemma NothingLostIff(b: Batch, acts: seq<Action>, s: State)
    requires Reaches(b, acts, s)
    ensures Within(s.drain.heard, |s.pool.taken|)
    ensures Kept(s) == Dequeued(s) <==>
            forall w: nat | w < |s.pool.taken| && s.pool.taken[w] != [] ::
              exists i: nat :: FirstHeard(s.pool.taken, s.drain.heard, i) && s.drain.heard[i] == w
  {
    KeptIsFirstHeard(b, acts, s);
    var taken, heard := s.pool.taken, s.drain.heard;
    AllEmpty(taken);
    if s.drain.steering.Some? {
      ReachableSteer(b, acts, s);
      var i := FirstHeardIndex(taken, heard);
      assert forall j: nat | FirstHeard(taken, heard, j) :: j == i;
      OnlyKeptIff(taken, heard[i]);
    }
  }

  lemma OnlyKeptIff(batches: seq<seq<Message>>, w: nat)
    requires w < |batches|
    ensures Flatten(batches) == batches[w] <==> forall v | 0 <= v < |batches| && v != w :: batches[v] == []
  {
    if forall v | 0 <= v < |batches| && v != w :: batches[v] == [] {
      OnlyBatch(batches, w);
    } else {
      var v :| 0 <= v < |batches| && v != w && batches[v] != [];
      if w < v { TwoBatchesAreMore(batches, w, v); } else { TwoBatchesAreMore(batches, v, w); }
    }
  }

  // ----- which batches of calls can lose messages -----

  predicate Uncancelled(acts: seq<Action>) { ContextEnds !in acts }

  /** Until something was heard the workers are not cancelled, so the first item is heard while draining. */
  predicate FirstIsHeard(b: Batch, s: State) {
    && !s.ctxDone
    && (s.drain.main == Draining ==> |s.drain.heard| == s.drain.received)
    && (s.drain.heard == [] ==> (s.drain.main == Draining && !s.toolDone) || (s.drain.main.Returned? && b.calls == []))
  }

  lemma {:induction false} ReachableFirst(b: Batch, acts: seq<Action>, s: State)
    requires Reaches(b, acts, s) && Uncancelled(acts)
    ensures FirstIsHeard(b, s)
  {
    if acts != [] {
      var front, a := acts[..|acts| - 1], acts[|acts| - 1];
      var mid :| Reaches(b, front, mid) && Shaped(b, mid) && Enabled(b, mid, a) && s == Next(b, mid, a);
      assert a in acts;
      ReachableFirst(b, front, mid);
      StepFirst(b, mid, a);
    }
  }

  lemma StepFirst(b: Batch, s: State, a: Action)
    requires Shaped(b, s) && FirstIsHeard(b, s) && Enabled(b, s, a) && a != ContextEnds
    ensures FirstIsHeard(b, Next(b, s, a))
  {
    match a
    case SteerArrives(_) =>
    case Receive =>
    case SeeToolDone =>
    case CollectOne =>
    case CollectStops =>
    case Finish =>
    case _ =>
  }

  lemma SingleCallLosesNothing(b: Batch, acts: seq<Action>, s: State)
    requires Reaches(b, acts, s) && Uncancelled(acts) && s.drain.main.Returned? && |b.calls| <= 1
    ensures Kept(s) == Dequeued(s)
  {
    ReachableInv(b, acts, s);
    ReachableFirst(b, acts, s);
    KeptIsFirstHeard(b, acts, s);
    OneBatch(s.pool.taken, s.drain.heard, s.drain.steering);
  }

  lemma OneBatch(taken: seq<seq<Message>>, heard: seq<nat>, steering: Option<seq<Message>>)
    requires |taken| <= 1 && Within(heard, |taken|) && (taken != [] ==> heard != [])
    requires steering == None <==> forall i | 0 <= i < |heard| :: taken[heard[i]] == []
    requires forall i: nat | FirstHeard(taken, heard, i) :: steering == Some(taken[heard[i]])
    ensures Flatten(taken) == if steering.Some? then steering.value else []
  {
    if taken != [] {
      OnlyBatch(taken, 0);
      assert heard[0] == 0;
      if taken[0] != [] { assert FirstHeard(taken, heard, 0); }
    }
  }

  /** s is reached without a cancellation, and these messages were steered on the way. */
  ghost predicate Runs(b: Batch, acts: seq<Action>, s: State, steered: seq<Message>) {
    Reaches(b, acts, s) && Shaped(b, s) && Uncancelled(acts) && Arrivals(acts) == steered
  }

  lemma Extend(b: Batch, acts: seq<Action>, s: State, steered: seq<Message>, a: Action) returns (acts': seq<Action>, t: State)
    requires Runs(b, acts, s, steered) && Enabled(b, s, a) && a != ContextEnds
    ensures t == Next(b, s, a) && Runs(b, acts', t, if a.SteerArrives? then steered + [a.msg] else steered)
  {
    ReachesSnoc(b, acts, s, a);
    assert (acts + [a])[..|acts|] == acts;
    KeepsShape(b, s, a);
    return acts + [a], Next(b, s, a);
  }

  lemma KeepsShape(b: Batch, s: State, a: Action)
    requires Shaped(b, s) && Enabled(b, s, a)
    ensures Shaped(b, Next(b, s, a))
  {}

  /** The phases when the workers before w are through, w is in phase p, and the others have not begun. */
  function Front(n: nat, w: nat, p: Phase): seq<Phase> {
    seq(n, v => if v < w then Exited else if v == w then p else Start)
  }

  lemma FrontMoves(n: nat, w: nat, p: Phase, q: Phase)
    requires w < n
    ensures Front(n, w, p)[w] == p && Front(n, w, p)[w := q] == Front(n, w, q)
    ensures Front(n, w, Exited) == Front(n, w + 1, Start)
  {}

  /** The first w workers are through and heard, the others have not begun, and the loop is in phase `main`. */
  predicate ThroughTo(b: Batch, s: State, w: nat, main: Main) {
    && w <= |b.calls| && s.pool.phase == Front(|b.calls|, w, Start)
    && s.channel == [] && s.pool.sem == 0
    && s.drain.main == main && s.drain.received == w
  }

  /** Worker w runs its tool from start to end, with nothing else going on. */
  lemma RunTool(b: Batch, acts0: seq<Action>, s0: State, steered: seq<Message>, w: nat, o: Outcome) returns (acts: seq<Action>, s: State)
    requires Runs(b, acts0, s0, steered) && ThroughTo(b, s0, w, s0.drain.main) && w < |b.calls| && b.concurrency > 0
    ensures Runs(b, acts, s, steered)
    ensures s.pool.phase == Front(|b.calls|, w + 1, Start) && s.pool.sem == 0 && s.drain == s0.drain && s.toolDone == s0.toolDone
    ensures s.steerQ == if o.Success? then [] else s0.steerQ
    ensures s.channel == [Item(w, ResultOf(b.calls[w], o), if o.Success? then s0.steerQ else [])]
  {
    var n, r, steer := |b.calls|, ResultOf(b.calls[w], o), if o.Success? then s0.steerQ else [];
    FrontMoves(n, w, Start, Running);
    acts, s := Extend(b, acts0, s0, steered, Acquire(w));
    FrontMoves(n, w, Running, Finishing(r, steer));
    acts, s := Extend(b, acts, s, steered, ToolReturns(w, o));
    FrontMoves(n, w, Finishing(r, steer), Releasing);
    acts, s := Extend(b, acts, s, steered, SendResult(w));
    FrontMoves(n, w, Releasing, Exited);
    acts, s := Extend(b, acts, s, steered, Release(w));
  }

  /** The first tool fails, which makes the loop turn to collecting. */
  lemma FailFirst(b: Batch) returns (acts: seq<Action>, s: State)
    requires |b.calls| >= 2 && b.concurrency > 0
    ensures Runs(b, acts, s, []) && ThroughTo(b, s, 1, Collecting) && s.toolDone && s.steerQ == [] && s.drain.steering == None
  {
    acts, s := [], Init(b);
    assert Runs(b, acts, s, []) && s.pool.phase == Front(|b.calls|, 0, Start);
    acts, s := RunTool(b, acts, s, [], 0, Failure(""));
    acts, s := Extend(b, acts, s, [], Receive);
    acts, s := Extend(b, acts, s, [], SeeToolDone);
  }

  /** The second tool succeeds all the same and empties the queue; its batch is collected and ignored. */
  lemma LoseSecond(b: Batch, acts0: seq<Action>, s0: State, m: Message) returns (acts: seq<Action>, s: State)
    requires |b.calls| >= 2 && b.concurrency > 0
    requires Runs(b, acts0, s0, []) && ThroughTo(b, s0, 1, Collecting) && s0.toolDone && s0.steerQ == []
    ensures Runs(b, acts, s, [m]) && ThroughTo(b, s, 2, Collecting) && s.toolDone && s.steerQ == [] && s.drain.steering == s0.drain.steering
  {
    acts, s := Extend(b, acts0, s0, [], SteerArrives(m));
    assert [] + [m] == [m];
    acts, s := RunTool(b, acts, s, [m], 1, Success(""));
    acts, s := Extend(b, acts, s, [m], CollectOne);
  }

  /** The remaining workers see the cancelled context and give up. */
  lemma {:induction false} BailOut(b: Batch, acts0: seq<Action>, s0: State, steered: seq<Message>, w: nat)
    returns (acts: seq<Action>, s: State)
    requires Runs(b, acts0, s0, steered) && ThroughTo(b, s0, w, Collecting) && s0.toolDone
    ensures Runs(b, acts, s, steered) && ThroughTo(b, s, |b.calls|, Collecting)
    ensures s.steerQ == s0.steerQ && s.drain.steering == s0.drain.steering
    decreases |b.calls| - w
  {
    acts, s := acts0, s0;
    if w < |b.calls| {
      FrontMoves(|b.calls|, w, Start, Bailing);
      acts, s := Extend(b, acts, s, steered, Bail(w));
      FrontMoves(|b.calls|, w, Bailing, Exited);
      acts, s := Extend(b, acts, s, steered, SendNil(w));
      acts, s := Extend(b, acts, s, steered, CollectOne);
      acts, s := BailOut(b, acts, s, steered, w + 1);
    }
  }

  /** With two calls or more the only batch can be lost, whatever the concurrency and though nobody cancelled. */
  lemma SoleBatchIsLost(b: Batch, m: Message) returns (acts: seq<Action>, s: State)
    requires |b.calls| >= 2 && b.concurrency > 0
    ensures Reaches(b, acts, s) && Uncancelled(acts) && s.drain.main.Returned?
    ensures Dequeued(s) == [m] && s.steerQ == [] && s.channel == [] && s.drain.steering == None
  {
    acts, s := FailFirst(b);
    acts, s := LoseSecond(b, acts, s, m);
    acts, s := BailOut(b, acts, s, [m], 2);
    acts, s := Extend(b, acts, s, [m], Finish);
    ArrivalsAreQueuedOrDequeued(b, acts, s);
    Singleton(Dequeued(s), m);
  }

  lemma Singleton(xs: seq<Message>, m: Message)
    requires multiset(xs) == multiset([m])
    ensures xs == [m]
  {
    assert |multiset(xs)| == 1;
    assert xs[0] in multiset(xs);
  }

  ghost predicate NeverLoses(b: Batch) {
    forall acts, s | Reaches(b, acts, s) && Uncancelled(acts) && s.drain.main.Returned? :: Kept(s) == Dequeued(s)
  }

  lemma SingleNeverLoses(b: Batch)
    requires |b.calls| <= 1
    ensures NeverLoses(b)
  {
    forall acts, s | Reaches(b, acts, s) && Uncancelled(acts) && s.drain.main.Returned? ensures Kept(s) == Dequeued(s) {
      SingleCallLosesNothing(b, acts, s);
    }
  }

  lemma TwoCanLose(b: Batch)
    requires |b.calls| >= 2 && b.concurrency > 0
    ensures !NeverLoses(b)
  {
    var acts, s := SoleBatchIsLost(b, User(""));
    assert Kept(s) == [] && Dequeued(s) != [];
  }

  /**
   No uncancelled run of a batch loses a dequeued message if and only if the batch has at most one call; it makes
   no difference how many tools may run at once.
   */
  lemma NoRunLosesIff(b: Batch)
    requires b.concurrency > 0
    ensures NeverLoses(b) <==> |b.calls| <= 1
  {
    if |b.calls| <= 1 { SingleNeverLoses(b); } else { TwoCanLose(b); }
  }

  /** Of two batches heard while draining the second is dropped, too. */
  lemma SecondSteerBatchIsLost(b: Batch, m1: Message, m2: Message) returns (acts: seq<Action>, s: State)
    requires |b.calls| == 2 && b.concurrency > 0
    ensures Reaches(b, acts, s) && Uncancelled(acts) && s.drain.main.Returned? && Arrivals(acts) == [m1, m2]
    ensures s.steerQ == [] && s.channel == [] && Kept(s) == [m1]
  {
    acts, s := FirstBatchHeard(b, m1);
    acts, s := Extend(b, acts, s, [m1], SteerArrives(m2));
    assert [] + [m2] == [m2] && [m1] + [m2] == [m1, m2];
    acts, s := RunTool(b, acts, s, [m1, m2], 1, Success(""));
    acts, s := Extend(b, acts, s, [m1, m2], Receive);
    acts, s := Extend(b, acts, s, [m1, m2], Finish);
  }

  /** A single call whose tool succeeds hands on what was steered meanwhile. */
  lemma OneCallHandsOn(b: Batch, m: Message) returns (acts: seq<Action>, s: State)
    requires |b.calls| == 1 && b.concurrency > 0
    ensures Reaches(b, acts, s) && s.drain.main.Returned? && Kept(s) == [m]
  {
    acts, s := FirstBatchHeard(b, m);
    acts, s := Extend(b, acts, s, [m], Finish);
  }

  lemma FirstBatchHeard(b: Batch, m: Message) returns (acts: seq<Action>, s: State)
    requires |b.calls| > 0 && b.concurrency > 0
    ensures Runs(b, acts, s, [m]) && ThroughTo(b, s, 1, Draining) && s.steerQ == [] && s.drain.steering == Some([m])
  {
    acts, s := [], Init(b);
    assert Runs(b, acts, s, []) && s.pool.phase == Front(|b.calls|, 0, Start);
    acts, s := Extend(b, acts, s, [], SteerArrives(m));
    assert [] + [m] == [m];
    acts, s := RunTool(b, acts, s, [m], 0, Success(""));
    acts, s := Extend(b, acts, s, [m], Receive);
  }
}
