/**
 executeTools: one goroutine per tool call, a counting semaphore, a buffered
 result channel and a draining loop that races with cancellation and steering.
 Every interleaving is a list of actions.
 */
module ToolExecutor {
  import opened Prelude
  import opened Conversation

  /** What running one tool can come to. */
  datatype Outcome =
    | Aborted                          // step-mode abort, or cancelled at the gate: no result
    | Failure(text: string)            // skipped, unknown tool, error or panic
    | Success(text: string)            // also drains the steering queue

  datatype Phase =
    | Start
    | Bailing                          // cancelled before a semaphore slot was free
    | Running                          // holds a slot from here ...
    | Finishing(result: Option<Message>, steer: seq<Message>)
    | Releasing                        // ... until after the send
    | Exited

  datatype Item = Item(index: nat, result: Option<Message>, steer: seq<Message>)

  datatype Main = Draining | Collecting | Returned(results: seq<Message>)

  /** The workers with their semaphore, the channel, and the draining loop's variables. */
  datatype Pool = Pool(phase: seq<Phase>, sem: nat,
                       made: map<nat, Option<Message>>,   // history: what each worker's tool came to
                       taken: seq<seq<Message>>)          // history: the steering messages each worker dequeued
  datatype Drain = Drain(main: Main, results: seq<Option<Message>>, received: nat, steering: Option<seq<Message>>,
                         got: set<nat>,                   // history: the workers heard from ...
                         heard: seq<nat>)                 // ... and those heard from while draining, in order
  datatype State = State(pool: Pool, channel: seq<Item>, drain: Drain, steerQ: seq<Message>, ctxDone: bool, toolDone: bool)

  datatype Action =
    | SteerArrives(msg: Message)
    | ContextEnds
    | Acquire(w: nat)
    | Bail(w: nat)
    | ToolReturns(w: nat, o: Outcome)
    | SendResult(w: nat)
    | SendNil(w: nat)
    | Release(w: nat)
    | Receive
    | SeeToolDone
    | CollectOne
    | CollectStops
    | Finish

  predicate Internal(a: Action) { !a.SteerArrives? && !a.ContextEnds? }

  /** One batch of calls; toolConcurrency is positive whatever the configuration, and 1 in step mode. */
  datatype Batch = Batch(calls: seq<ToolCall>, concurrency: nat)

  function Init(b: Batch): State {
    State(Pool(seq(|b.calls|, _ => Start), 0, map[], seq(|b.calls|, _ => [])), [],
          Drain(Draining, seq(|b.calls|, _ => None), 0, None, {}, []), [], false, false)
  }

  predicate PhaseIs(s: State, w: nat, p: Phase) { w < |s.pool.phase| && s.pool.phase[w] == p }

  predicate Enabled(b: Batch, s: State, a: Action) {
    match a
    case SteerArrives(_) => true
    case ContextEnds => true
    case Acquire(w) => PhaseIs(s, w, Start) && s.pool.sem < b.concurrency
    case Bail(w) => PhaseIs(s, w, Start) && s.toolDone
    case ToolReturns(w, _) => PhaseIs(s, w, Running)
    case SendResult(w) => w < |s.pool.phase| && s.pool.phase[w].Finishing? && |s.channel| < |b.calls|
    case SendNil(w) => PhaseIs(s, w, Bailing) && |s.channel| < |b.calls|
    case Release(w) => PhaseIs(s, w, Releasing) && s.pool.sem > 0
    case Receive => s.drain.main == Draining && s.drain.received < |b.calls| && s.channel != []
    case SeeToolDone => s.drain.main == Draining && s.drain.received < |b.calls| && s.toolDone
    case CollectOne => s.drain.main == Collecting && s.drain.received < |b.calls| && s.channel != []
    case CollectStops => s.drain.main == Collecting && s.drain.received < |b.calls| && s.ctxDone
    case Finish => !s.drain.main.Returned? && s.drain.received == |b.calls|
  }

  /** The error standing in for a result that was never received. */
  function CancelledResult(c: ToolCall): Message { ToolResult(c.id, c.name, "tool execution cancelled", true) }

  predicate IsError(r: Option<Message>) { r.Some? && r.value.ToolResult? && r.value.isError }

  function ResultOf(c: ToolCall, o: Outcome): Option<Message> {
    match o
    case Aborted => None
    case Failure(t) => Some(ToolResult(c.id, c.name, t, true))
    case Success(t) => Some(ToolResult(c.id, c.name, t, false))
  }

  function SetPhase(p: Pool, w: nat, q: Phase): Pool
    requires w < |p.phase|
  {
    p.(phase := p.phase[w := q])
  }

  /** Unreported calls get an error result; nothing is nil on return. */
  function FillMissing(calls: seq<ToolCall>, results: seq<Option<Message>>): seq<Message>
    requires |calls| == |results|
  {
    seq(|calls|, i requires 0 <= i < |calls| =>
      match results[i] case Some(r) => r case None => CancelledResult(calls[i]))
  }

  /** Storing one received item. */
  function Store(d: Drain, it: Item): Drain
    requires it.index < |d.results|
  {
    d.(results := d.results[it.index := it.result], received := d.received + 1, got := d.got + {it.index})
  }

  function Next(b: Batch, s: State, a: Action): State
    requires Enabled(b, s, a) && Shaped(b, s)
  {
    match a
    case SteerArrives(m) => s.(steerQ := s.steerQ + [m])
    case ContextEnds => s.(ctxDone := true, toolDone := true)
    case Receive => NextReceive(s)
    case SeeToolDone => s.(drain := s.drain.(main := Collecting))
    case CollectOne => s.(channel := s.channel[1..], drain := Store(s.drain, s.channel[0]))
    case CollectStops => NextReturn(b, s)
    case Finish => NextReturn(b, s)
    case _ => NextWorker(b, s, a)
  }

  function NextReceive(s: State): State
    requires s.channel != [] && s.channel[0].index < |s.drain.results|
  {
    var it := s.channel[0];
    var first := it.steer != [] && s.drain.steering == None;
    var d := Store(s.drain, it).(heard := s.drain.heard + [it.index]);
    s.(channel := s.channel[1..],
       drain := if first then d.(steering := Some(it.steer)) else d,
       toolDone := s.toolDone || first || IsError(it.result))
  }

  /** Returning also cancels the tool context. */
  function NextReturn(b: Batch, s: State): State
    requires |s.drain.results| == |b.calls|
  {
    s.(drain := s.drain.(main := Returned(FillMissing(b.calls, s.drain.results))), toolDone := true)
  }

  function OnReturn(p: Pool, w: nat, r: Option<Message>, steer: seq<Message>): Pool
    requires w < |p.phase| == |p.taken|
  {
    Pool(p.phase[w := Finishing(r, steer)], p.sem, p.made[w := r], p.taken[w := steer])
  }

  function NextWorker(b: Batch, s: State, a: Action): State
    requires Enabled(b, s, a) && Shaped(b, s)
    requires a.Acquire? || a.Bail? || a.ToolReturns? || a.SendResult? || a.SendNil? || a.Release?
  {
    match a
    case Acquire(w) => s.(pool := s.pool.(phase := s.pool.phase[w := Running], sem := s.pool.sem + 1))
    case Bail(w) => s.(pool := SetPhase(s.pool, w, Bailing))
    case ToolReturns(w, o) =>
      var steer := if o.Success? then s.steerQ else [];
      s.(pool := OnReturn(s.pool, w, ResultOf(b.calls[w], o), steer), steerQ := if o.Success? then [] else s.steerQ)
    case SendResult(w) =>
      s.(pool := SetPhase(s.pool, w, Releasing), channel := s.channel + [Item(w, s.pool.phase[w].result, s.pool.phase[w].steer)])
    case SendNil(w) => s.(pool := SetPhase(s.pool, w, Exited), channel := s.channel + [Item(w, None, [])])
    case Release(w) => s.(pool := s.pool.(phase := s.pool.phase[w := Exited], sem := s.pool.sem - 1))
  }

  predicate Shaped(b: Batch, s: State) {
    && |s.pool.phase| == |s.pool.taken| == |s.drain.results| == |b.calls|
    && forall i | 0 <= i < |s.channel| :: s.channel[i].index < |b.calls|
  }

  // ----- invariant, part 1: results carry their own call's id -----

  /** r is absent, or what w's tool came to, under the id of call w. */
  predicate Own(b: Batch, made: map<nat, Option<Message>>, w: nat, r: Option<Message>)
    requires w < |b.calls|
  {
    r.Some? ==> r.value.ToolResult? && r.value.callId == b.calls[w].id && w in made && made[w] == r
  }

  predicate OwnResults(b: Batch, s: State)
    requires Shaped(b, s)
  {
    && (forall w | w in s.pool.made :: w < |b.calls| && (s.pool.phase[w].Finishing? || HasSent(s.pool.phase[w])))
    && (forall w | 0 <= w < |b.calls| && s.pool.phase[w].Finishing? ::
          w in s.pool.made && s.pool.made[w] == s.pool.phase[w].result && Own(b, s.pool.made, w, s.pool.phase[w].result))
    && (forall i | 0 <= i < |s.channel| :: Own(b, s.pool.made, s.channel[i].index, s.channel[i].result))
    && (forall w | 0 <= w < |b.calls| :: Own(b, s.pool.made, w, s.drain.results[w]))
    && (s.drain.main.Returned? ==> |s.drain.main.results| == |b.calls|)
    && (s.drain.main.Returned? ==> forall w | 0 <= w < |b.calls| :: OwnOrCancelled(b, s.pool.made, w, s.drain.main.results[w]))
  }

  predicate OwnOrCancelled(b: Batch, made: map<nat, Option<Message>>, w: nat, r: Message)
    requires w < |b.calls|
  {
    Own(b, made, w, Some(r)) || r == CancelledResult(b.calls[w])
  }

  lemma KeepsOwnResults(b: Batch, s: State, a: Action)
    requires Shaped(b, s) && OwnResults(b, s) && Enabled(b, s, a)
    ensures Shaped(b, Next(b, s, a)) && OwnResults(b, Next(b, s, a))
  {
    match a
    case Receive => StoreKeepsOwn(b, s);
    case CollectOne => StoreKeepsOwn(b, s);
    case SteerArrives(_) =>
    case ContextEnds =>
    case SeeToolDone =>
    case CollectStops =>
    case Finish =>
    case _ => WorkerKeepsOwn(b, s, a);
  }

  lemma StoreKeepsOwn(b: Batch, s: State)
    requires Shaped(b, s) && OwnResults(b, s) && s.channel != [] && !s.drain.main.Returned?
    ensures var t := s.(channel := s.channel[1..], drain := Store(s.drain, s.channel[0])); Shaped(b, t) && OwnResults(b, t)
    ensures Shaped(b, NextReceive(s)) && OwnResults(b, NextReceive(s))
  {
    var t := s.(channel := s.channel[1..], drain := Store(s.drain, s.channel[0]));
    assert forall i | 0 <= i < |t.channel| :: t.channel[i] == s.channel[i + 1];
    assert Shaped(b, t) && OwnResults(b, t);
  }

  lemma WorkerKeepsOwn(b: Batch, s: State, a: Action)
    requires Shaped(b, s) && OwnResults(b, s) && Enabled(b, s, a)
    requires a.Acquire? || a.Bail? || a.ToolReturns? || a.SendResult? || a.SendNil? || a.Release?
    ensures Shaped(b, NextWorker(b, s, a)) && OwnResults(b, NextWorker(b, s, a))
  {
    match a
    case Acquire(w) => PhaseKeepsOwn(b, s, w, Running, s.pool.sem + 1);
    case Bail(w) => PhaseKeepsOwn(b, s, w, Bailing, s.pool.sem);
    case ToolReturns(w, o) => ReturnKeepsOwn(b, s, w, ResultOf(b.calls[w], o), if o.Success? then s.steerQ else []);
    case SendResult(w) => SendKeepsOwn(b, s, w, Releasing, Item(w, s.pool.phase[w].result, s.pool.phase[w].steer));
    case SendNil(w) => SendKeepsOwn(b, s, w, Exited, Item(w, None, []));
    case Release(w) => PhaseKeepsOwn(b, s, w, Exited, s.pool.sem - 1);
  }

  lemma PhaseKeepsOwn(b: Batch, s: State, w: nat, q: Phase, sem: nat)
    requires Shaped(b, s) && OwnResults(b, s) && w < |b.calls|
    requires !q.Finishing? && (w in s.pool.made ==> HasSent(q))
    ensures var t := s.(pool := s.pool.(phase := s.pool.phase[w := q], sem := sem)); Shaped(b, t) && OwnResults(b, t)
  {
    var t := s.(pool := s.pool.(phase := s.pool.phase[w := q], sem := sem));
    assert forall v | 0 <= v < |b.calls| && v != w :: t.pool.phase[v] == s.pool.phase[v];
  }

  lemma SendKeepsOwn(b: Batch, s: State, w: nat, q: Phase, it: Item)
    requires Shaped(b, s) && OwnResults(b, s) && w < |b.calls| && HasSent(q)
    requires it.index == w && Own(b, s.pool.made, w, it.result)
    ensures var t := s.(pool := SetPhase(s.pool, w, q), channel := s.channel + [it]); Shaped(b, t) && OwnResults(b, t)
  {
    PhaseKeepsOwn(b, s, w, q, s.pool.sem);
    var t := s.(pool := SetPhase(s.pool, w, q), channel := s.channel + [it]);
    assert forall i | 0 <= i < |t.channel| :: t.channel[i] == if i < |s.channel| then s.channel[i] else it;
  }

  lemma ReturnKeepsOwn(b: Batch, s: State, w: nat, r: Option<Message>, steer: seq<Message>)
    requires Shaped(b, s) && OwnResults(b, s) && PhaseIs(s, w, Running)
    requires r.Some? ==> r.value.ToolResult? && r.value.callId == b.calls[w].id
    ensures forall q :: var t := s.(pool := OnReturn(s.pool, w, r, steer), steerQ := q); Shaped(b, t) && OwnResults(b, t)
  {
    var p := OnReturn(s.pool, w, r, steer);
    assert w !in s.pool.made;
    assert forall v: nat, x | v < |b.calls| && Own(b, s.pool.made, v, x) :: Own(b, p.made, v, x);
    assert forall v | 0 <= v < |b.calls| && v != w :: p.phase[v] == s.pool.phase[v];
  }

  // ----- invariant, part 2: slots and sends -----

  predicate Holds(p: Phase) { p.Running? || p.Finishing? || p.Releasing? }
  predicate HasSent(p: Phase) { p.Releasing? || p.Exited? }

  function Holders(p: seq<Phase>): set<nat> { set w: nat | w < |p| && Holds(p[w]) }
  function Senders(p: seq<Phase>): set<nat> { set w: nat | w < |p| && HasSent(p[w]) }
  function Indices(ch: seq<Item>): set<nat> { set i | 0 <= i < |ch| :: ch[i].index }

  /** The semaphore counts exactly the workers inside their slot. */
  predicate SlotsCounted(b: Batch, p: Pool) {
    p.sem == |Holders(p.phase)| && p.sem <= b.concurrency
  }

  /** Each worker that has sent has one item, in the channel or received; no other worker has any. */
  ghost predicate SendsTracked(s: State) {
    Tracked(s.channel, s.drain.got, s.drain.received, Senders(s.pool.phase))
  }

  ghost predicate Tracked(ch: seq<Item>, got: set<nat>, received: nat, senders: set<nat>) {
    && Distinct(ch)
    && Indices(ch) !! got
    && Indices(ch) + got == senders
    && received == |got|
  }

  lemma HoldersAfter(p: seq<Phase>, w: nat, q: Phase)
    requires w < |p|
    ensures |Holders(p[w := q])| == |Holders(p)| + (if Holds(q) then 1 else 0) - (if Holds(p[w]) then 1 else 0)
  {
    var rest := Holders(p) - {w};
    assert Holders(p) == if Holds(p[w]) then rest + {w} else rest;
    assert Holders(p[w := q]) == if Holds(q) then rest + {w} else rest;
  }

  lemma SendersAfter(p: seq<Phase>, w: nat, q: Phase)
    requires w < |p| && (HasSent(p[w]) ==> HasSent(q))
    ensures Senders(p[w := q]) == if HasSent(q) then Senders(p) + {w} else Senders(p)
    ensures w in Senders(p) <==> HasSent(p[w])
  {}

  lemma {:induction false} ChannelSize(ch: seq<Item>)
    requires Distinct(ch)
    ensures |Indices(ch)| == |ch|
  {
    if ch != [] {
      var n := |ch| - 1;
      ChannelSize(ch[..n]);
      assert Indices(ch) == Indices(ch[..n]) + {ch[n].index};
      assert ch[n].index !in Indices(ch[..n]);
    }
  }

  function Below(n: nat): (r: set<nat>)
    ensures forall w: nat :: w in r <==> w < n
    ensures |r| == n
  {
    if n == 0 then {} else Below(n - 1) + {n - 1}
  }

  lemma SubsetSize(xs: set<nat>, ys: set<nat>)
    requires xs <= ys
    ensures |xs| <= |ys|
    ensures |xs| == |ys| <==> xs == ys
  {
    assert ys == xs + (ys - xs);
    if xs != ys {
      assert ys - xs != {};
    }
  }

  lemma KeepsSlots(b: Batch, s: State, a: Action)
    requires Shaped(b, s) && SlotsCounted(b, s.pool) && Enabled(b, s, a)
    ensures SlotsCounted(b, Next(b, s, a).pool)
  {
    match a
    case Acquire(w) => HoldersAfter(s.pool.phase, w, Running);
    case Bail(w) => HoldersAfter(s.pool.phase, w, Bailing);
    case ToolReturns(w, o) =>
      HoldersAfter(s.pool.phase, w, Finishing(ResultOf(b.calls[w], o), if o.Success? then s.steerQ else []));
    case SendResult(w) => HoldersAfter(s.pool.phase, w, Releasing);
    case SendNil(w) => HoldersAfter(s.pool.phase, w, Exited);
    case Release(w) => HoldersAfter(s.pool.phase, w, Exited);
    case _ => assert Next(b, s, a).pool == s.pool;
  }

  lemma KeepsSends(b: Batch, s: State, a: Action)
    requires Shaped(b, s) && SendsTracked(s) && Enabled(b, s, a)
    ensures SendsTracked(Next(b, s, a))
  {
    match a
    case Receive => StoreKeepsSends(s);
    case CollectOne => StoreKeepsSends(s);
    case Acquire(w) => SendersAfter(s.pool.phase, w, Running);
    case Bail(w) => SendersAfter(s.pool.phase, w, Bailing);
    case ToolReturns(w, o) =>
      SendersAfter(s.pool.phase, w, Finishing(ResultOf(b.calls[w], o), if o.Success? then s.steerQ else []));
    case SendResult(w) => SendKeepsSends(s, w, Releasing, Item(w, s.pool.phase[w].result, s.pool.phase[w].steer));
    case SendNil(w) => SendKeepsSends(s, w, Exited, Item(w, None, []));
    case Release(w) => SendersAfter(s.pool.phase, w, Exited);
    case _ =>
  }

  ghost predicate Distinct(ch: seq<Item>) {
    forall i, j | 0 <= i < j < |ch| :: ch[i].index != ch[j].index
  }

  lemma IndicesTail(ch: seq<Item>)
    requires ch != [] && Distinct(ch)
    ensures Distinct(ch[1..]) && ch[0].index !in Indices(ch[1..])
    ensures Indices(ch) == {ch[0].index} + Indices(ch[1..])
  {
    var rest := ch[1..];
    forall x | x in Indices(ch) ensures x in {ch[0].index} + Indices(rest) {
      var i :| 0 <= i < |ch| && ch[i].index == x;
      if i > 0 { assert rest[i - 1].index == x; }
    }
    forall x | x in Indices(rest) ensures x in Indices(ch) {
      var i :| 0 <= i < |rest| && rest[i].index == x;
      assert ch[i + 1].index == x;
    }
  }

  lemma IndicesSnoc(ch: seq<Item>, it: Item)
    ensures Indices(ch + [it]) == Indices(ch) + {it.index}
    ensures Distinct(ch) && it.index !in Indices(ch) ==> Distinct(ch + [it])
  {
    var more := ch + [it];
    assert more[|ch|] == it;
    forall x | x in Indices(ch) ensures x in Indices(more) {
      var i :| 0 <= i < |ch| && ch[i].index == x;
      assert more[i].index == x;
    }
    assert forall i | 0 <= i < |ch| :: ch[i].index in Indices(ch);
  }

  lemma StoreKeepsSends(s: State)
    requires SendsTracked(s) && s.channel != [] && s.channel[0].index < |s.drain.results|
    ensures SendsTracked(s.(channel := s.channel[1..], drain := Store(s.drain, s.channel[0])))
    ensures SendsTracked(NextReceive(s))
  {
    StoreKeepsTracked(s.channel, s.drain.got, s.drain.received, Senders(s.pool.phase));
  }

  lemma StoreKeepsTracked(ch: seq<Item>, got: set<nat>, received: nat, senders: set<nat>)
    requires Tracked(ch, got, received, senders) && ch != []
    ensures Tracked(ch[1..], got + {ch[0].index}, received + 1, senders)
  {
    IndicesTail(ch);
  }

  lemma SendKeepsSends(s: State, w: nat, q: Phase, it: Item)
    requires SendsTracked(s) && w < |s.pool.phase| && !HasSent(s.pool.phase[w]) && HasSent(q) && it.index == w
    ensures SendsTracked(s.(pool := SetPhase(s.pool, w, q), channel := s.channel + [it]))
  {
    SendersAfter(s.pool.phase, w, q);
    IndicesSnoc(s.channel, it);
  }

  // ----- runs -----

  ghost predicate Inv(b: Batch, s: State) {
    Shaped(b, s) && OwnResults(b, s) && SlotsCounted(b, s.pool) && SendsTracked(s)
  }

  /** s is reached from the initial state by the actions, each possible when taken. */
  ghost predicate Reaches(b: Batch, acts: seq<Action>, s: State) {
    if acts == [] then s == Init(b)
    else exists mid ::
      Reaches(b, acts[..|acts| - 1], mid) && Shaped(b, mid) &&
      Enabled(b, mid, acts[|acts| - 1]) && s == Next(b, mid, acts[|acts| - 1])
  }

  lemma InitInv(b: Batch)
    ensures Inv(b, Init(b))
  {
    assert Holders(Init(b).pool.phase) == {} && Senders(Init(b).pool.phase) == {};
  }

  lemma NextKeepsInv(b: Batch, s: State, a: Action)
    requires Inv(b, s) && Enabled(b, s, a)
    ensures Inv(b, Next(b, s, a))
  {
    KeepsOwnResults(b, s, a);
    KeepsSlots(b, s, a);
    KeepsSends(b, s, a);
  }

  lemma {:induction false} ReachableInv(b: Batch, acts: seq<Action>, s: State)
    requires Reaches(b, acts, s)
    ensures Inv(b, s)
  {
    if acts == [] {
      InitInv(b);
    } else {
      var front, a := acts[..|acts| - 1], acts[|acts| - 1];
      var mid :| Reaches(b, front, mid) && Shaped(b, mid) && Enabled(b, mid, a) && s == Next(b, mid, a);
      ReachableInv(b, front, mid);
      NextKeepsInv(b, mid, a);
    }
  }

  lemma ReachesSnoc(b: Batch, acts: seq<Action>, s: State, a: Action)
    requires Reaches(b, acts, s) && Shaped(b, s) && Enabled(b, s, a)
    ensures Reaches(b, acts + [a], Next(b, s, a))
  {
    assert (acts + [a])[..|acts|] == acts;
  }

  // ----- main results -----

  /** Whatever the interleaving, executeTools returns one result per call, in call order: what
     that call's tool came to, under that call's id, or a cancellation error under that id. */
  lemma OneResultPerCall(b: Batch, acts: seq<Action>, s: State)
    requires Reaches(b, acts, s) && s.drain.main.Returned?
    ensures |s.drain.main.results| == |b.calls|
    ensures forall i | 0 <= i < |b.calls| ::
              && s.drain.main.results[i].ToolResult? && s.drain.main.results[i].callId == b.calls[i].id
              && (s.drain.main.results[i] == CancelledResult(b.calls[i]) ||
                  (i in s.pool.made && s.pool.made[i] == Some(s.drain.main.results[i])))
  {
    ReachableInv(b, acts, s);
  }

  /** At most `concurrency` tools run at the same time. */
  lemma ConcurrencyBounded(b: Batch, acts: seq<Action>, s: State)
    requires Reaches(b, acts, s)
    ensures |set w: nat | w < |s.pool.phase| && s.pool.phase[w].Running?| <= b.concurrency
  {
    ReachableInv(b, acts, s);
    var running := set w: nat | w < |s.pool.phase| && s.pool.phase[w].Running?;
    SubsetSize(running, Holders(s.pool.phase));
  }

  /** A worker that is about to send always finds room in the channel, even after the loop has given up. */
  lemma SendsNeverBlock(b: Batch, acts: seq<Action>, s: State, w: nat)
    requires Reaches(b, acts, s) && w < |s.pool.phase|
    ensures s.pool.phase[w].Finishing? ==> Enabled(b, s, SendResult(w)) && |s.channel| < |b.calls|
    ensures s.pool.phase[w].Bailing? ==> Enabled(b, s, SendNil(w)) && |s.channel| < |b.calls|
    ensures s.pool.phase[w].Releasing? ==> Enabled(b, s, Release(w)) && s.pool.sem > 0
  {
    ReachableInv(b, acts, s);
    RoomForUnsent(b, s, w);
    if Holds(s.pool.phase[w]) { assert w in Holders(s.pool.phase); }
  }

  lemma RoomForUnsent(b: Batch, s: State, w: nat)
    requires Inv(b, s) && w < |s.pool.phase|
    ensures !HasSent(s.pool.phase[w]) ==> |s.channel| < |b.calls| && s.drain.received < |b.calls|
  {
    if !HasSent(s.pool.phase[w]) {
      ChannelSize(s.channel);
      var all := Below(|b.calls|);
      SubsetSize(Senders(s.pool.phase), all);
      assert w in all && w !in Senders(s.pool.phase);
      SubsetSize(Indices(s.channel), Senders(s.pool.phase));
      SubsetSize(s.drain.got, Senders(s.pool.phase));
    }
  }

  // ----- it always finishes -----

  predicate AllFinished(s: State) {
    s.drain.main.Returned? && forall w | 0 <= w < |s.pool.phase| :: s.pool.phase[w] == Exited
  }

  /** Until the call has returned and every goroutine has ended, some thread can move. */
  lemma SomeThreadCanMove(b: Batch, acts: seq<Action>, s: State) returns (a: Action)
    requires Reaches(b, acts, s) && b.concurrency > 0 && !AllFinished(s)
    ensures Internal(a) && Enabled(b, s, a)
  {
    ReachableInv(b, acts, s);
    if s.drain.main.Returned? {
      var w :| 0 <= w < |s.pool.phase| && s.pool.phase[w] != Exited;
      a := WorkerCanMove(b, s, w);
    } else if s.drain.received == |b.calls| {
      a := Finish;
    } else {
      SubsetSize(s.drain.got, Below(|b.calls|));
      if s.channel != [] {
        a := if s.drain.main == Draining then Receive else CollectOne;
      } else {
        var w := UnsentWorker(b, s);
        a := WorkerCanMove(b, s, w);
      }
    }
  }

  lemma UnsentWorker(b: Batch, s: State) returns (w: nat)
    requires Inv(b, s) && s.channel == [] && s.drain.received < |b.calls|
    ensures w < |s.pool.phase| && !HasSent(s.pool.phase[w])
  {
    assert Indices(s.channel) == {};
    assert s.drain.got == Senders(s.pool.phase);
    var all, sent := Below(|b.calls|), Senders(s.pool.phase);
    assert all * sent == sent && |all - sent| == |all| - |all * sent|;
    w :| w in all - sent;
  }

  lemma WorkerCanMove(b: Batch, s: State, w: nat) returns (a: Action)
    requires Inv(b, s) && b.concurrency > 0 && w < |s.pool.phase| && s.pool.phase[w] != Exited
    ensures Internal(a) && Enabled(b, s, a)
  {
    if s.pool.phase[w] == Start {
      if s.pool.sem < b.concurrency {
        a := Acquire(w);
      } else {
        assert Holders(s.pool.phase) != {};
        var h :| h in Holders(s.pool.phase);
        a := HolderCanMove(b, s, h);
      }
    } else if s.pool.phase[w] == Bailing {
      RoomForUnsent(b, s, w);
      a := SendNil(w);
    } else {
      a := HolderCanMove(b, s, w);
    }
  }

  lemma HolderCanMove(b: Batch, s: State, w: nat) returns (a: Action)
    requires Inv(b, s) && w < |s.pool.phase| && Holds(s.pool.phase[w])
    ensures Internal(a) && Enabled(b, s, a)
  {
    RoomForUnsent(b, s, w);
    assert w in Holders(s.pool.phase);
    match s.pool.phase[w]
    case Running => a := ToolReturns(w, Aborted);
    case Finishing(_, _) => a := SendResult(w);
    case Releasing => a := Release(w);
  }

  function Rank(p: Phase): nat {
    match p
    case Start => 4
    case Running => 3
    case Finishing(_, _) => 2
    case Bailing => 1
    case Releasing => 1
    case Exited => 0
  }

  function RankSum(p: seq<Phase>): nat {
    if p == [] then 0 else RankSum(p[..|p| - 1]) + Rank(p[|p| - 1])
  }

  lemma {:induction false} RankSumAfter(p: seq<Phase>, w: nat, q: Phase)
    requires w < |p|
    ensures RankSum(p[w := q]) == RankSum(p) - Rank(p[w]) + Rank(q)
  {
    var n := |p| - 1;
    if w < n {
      RankSumAfter(p[..n], w, q);
      assert p[w := q][..n] == p[..n][w := q];
    } else {
      assert p[w := q][..n] == p[..n];
    }
  }

  /** The internal steps that remain. */
  function Remaining(b: Batch, s: State): int {
    RankSum(s.pool.phase) + (|b.calls| - s.drain.received) +
    match s.drain.main case Draining => 2 case Collecting => 1 case Returned(_) => 0
  }

  lemma StepsRunOut(b: Batch, s: State, a: Action)
    requires Shaped(b, s) && Enabled(b, s, a)
    ensures Internal(a) ==> Remaining(b, Next(b, s, a)) < Remaining(b, s)
    ensures !Internal(a) ==> Remaining(b, Next(b, s, a)) == Remaining(b, s)
  {
    if a.Acquire? || a.Bail? || a.ToolReturns? || a.SendResult? || a.SendNil? || a.Release? {
      WorkerStepsRunOut(b, s, a);
    }
  }

  lemma WorkerStepsRunOut(b: Batch, s: State, a: Action)
    requires Shaped(b, s) && Enabled(b, s, a)
    requires a.Acquire? || a.Bail? || a.ToolReturns? || a.SendResult? || a.SendNil? || a.Release?
    ensures RankSum(NextWorker(b, s, a).pool.phase) < RankSum(s.pool.phase)
    ensures NextWorker(b, s, a).drain == s.drain
  {
    match a
    case Acquire(w) => RankSumAfter(s.pool.phase, w, Running);
    case Bail(w) => RankSumAfter(s.pool.phase, w, Bailing);
    case ToolReturns(w, o) =>
      RankSumAfter(s.pool.phase, w, Finishing(ResultOf(b.calls[w], o), if o.Success? then s.steerQ else []));
    case SendResult(w) => RankSumAfter(s.pool.phase, w, Releasing);
    case SendNil(w) => RankSumAfter(s.pool.phase, w, Exited);
    case Release(w) => RankSumAfter(s.pool.phase, w, Exited);
  }

  function InternalSteps(acts: seq<Action>): set<nat> { set i: nat | i < |acts| && Internal(acts[i]) }

  lemma StepsSnoc(acts: seq<Action>)
    requires acts != []
    ensures |InternalSteps(acts)| == |InternalSteps(acts[..|acts| - 1])| + if Internal(acts[|acts| - 1]) then 1 else 0
  {
    var front := InternalSteps(acts[..|acts| - 1]);
    assert InternalSteps(acts) == if Internal(acts[|acts| - 1]) then front + {|acts| - 1} else front;
  }

  lemma {:induction false} RankSumOfStarts(n: nat)
    ensures RankSum(seq(n, _ => Start)) == 4 * n
  {
    if n > 0 {
      RankSumOfStarts(n - 1);
      assert seq(n, _ => Start)[..n - 1] == seq(n - 1, _ => Start);
    }
  }

  /** No run takes more than 5 steps per call and 2 more, so with SomeThreadCanMove every run ends with everything finished. */
  lemma {:induction false} RunsAreBounded(b: Batch, acts: seq<Action>, s: State)
    requires Reaches(b, acts, s)
    ensures |set i: nat | i < |acts| && Internal(acts[i])| + Remaining(b, s) <= 5 * |b.calls| + 2
    ensures Remaining(b, s) >= 0
  {
    assert InternalSteps(acts) == set i: nat | i < |acts| && Internal(acts[i]);
    if acts == [] {
      assert InternalSteps(acts) == {};
      RankSumOfStarts(|b.calls|);
    } else {
      var front, a := acts[..|acts| - 1], acts[|acts| - 1];
      var mid :| Reaches(b, front, mid) && Shaped(b, mid) && Enabled(b, mid, a) && s == Next(b, mid, a);
      RunsAreBounded(b, front, mid);
      ReachableInv(b, front, mid);
      StepsRunOut(b, mid, a);
      StepsSnoc(acts);
    }
    ReachableInv(b, acts, s);
    SubsetSize(s.drain.got, Below(|b.calls|));
  }
}
