/**
 One streamed provider call: the extension writes deltas and finally a reply
 into a FIFO pipe; the host's read loop files them into a bounded channel and a
 pending-request slot; a request goroutine and a forwarding loop race to turn
 them into the caller's event channel. Every interleaving is a list of actions.
 */
module DeltaStream {
  import opened Prelude
  import opened Subsequences

  const CAPACITY: nat := 256

  datatype Kind = TextDelta | ThinkingDelta | ToolCallDelta | StreamDone | StreamError

  datatype Delta = Delta(kind: Kind, text: string)
  datatype Event = Event(kind: Kind, text: string)

  /** A line from the extension: a delta tagged with a request id, a reply tagged with a call id, or unrelated traffic. */
  datatype Line =
    | DeltaLine(rid: nat, delta: Delta)
    | ReplyLine(id: nat, ok: bool)
    | OtherLine

  /** The two ids of this call: `rid` tags its deltas, `id` its reply. */
  datatype Call = Call(rid: nat, id: nat)

  // ----- the shared state, by owner -----

  /** Everything the extension wrote, how much of it the read loop has taken, and what that thread is doing. */
  datatype Pipe = Pipe(sent: seq<Line>, read: nat, reader: Reader)
  datatype Reader = Idle | Holding(delta: Delta) | HoldingReply(ok: bool) | Exited

  /** The delta channel, its entry in the host's map, and its history. */
  datatype Channel = Channel(registered: bool, buffer: seq<Delta>, pushed: seq<Delta>, dropped: nat)

  /** The pending slot with its one-place channel, the request goroutine, and the channel it answers on. */
  datatype Rpc = Rpc(pending: bool, replyCh: Option<bool>, requester: Requester, respCh: Option<Response>)
  datatype Response = Reply(ok: bool) | Failed
  datatype Requester = NotSpawned | Spawned | Waiting | Returned

  /** The forwarding loop and the events it has emitted. */
  datatype Forward = Forward(phase: Phase, out: seq<Event>)
  datatype Phase = Starting | Forwarding | Draining(resp: Response) | Closed(how: Ending)
  datatype Ending = Refused | ByResponse(resp: Response) | ByCancel | ByCrash

  /**
   History only: lines read before the channel was registered, deltas of this call
   read since, where the filed reply stands in `sent`, and what had been seen by then.
   */
  datatype History = History(start: nat, seen: seq<Delta>, accepted: Option<nat>, seenThen: seq<Delta>)

  datatype State = State(pipe: Pipe, chan: Channel, rpc: Rpc, fwd: Forward, hist: History, cancelled: bool, closed: bool)

  const INIT := State(Pipe([], 0, Idle), Channel(false, [], [], 0), Rpc(false, None, NotSpawned, None),
                      Forward(Starting, []), History(0, [], None, []), false, false)

  // ----- actions -----

  datatype Action =
    | Writes(line: Line)           // the extension
    | Cancel                       // the caller's context ends
    | OfReader(reader: ReaderAct)
    | OfRequest(request: RequestAct)
    | OfForward(forward: ForwardAct)

  datatype ReaderAct = Take | Push | Answer | Exit
  datatype RequestAct = Send | SendFails | GetReply | SeeCancel | SeeClosed
  datatype ForwardAct = Refuse | MarshalFails | Register | Emit | GetResponse | OnCancel | OnClosed | DrainOne | Finish

  predicate Enabled(s: State, a: Action) {
    match a
    case Writes(_) => s.pipe.reader != Exited
    case Cancel => true
    case OfReader(Take) => s.pipe.reader == Idle && s.pipe.read < |s.pipe.sent|
    case OfReader(Push) => s.pipe.reader.Holding?
    case OfReader(Answer) => s.pipe.reader.HoldingReply?
    case OfReader(Exit) => s.pipe.reader == Idle
    case OfRequest(Send) => s.rpc.requester == Spawned
    case OfRequest(SendFails) => s.rpc.requester == Spawned
    case OfRequest(GetReply) => s.rpc.requester == Waiting && s.rpc.replyCh.Some?
    case OfRequest(SeeCancel) => s.rpc.requester == Waiting && s.cancelled
    case OfRequest(SeeClosed) => s.rpc.requester == Waiting && s.closed
    case OfForward(Refuse) => s.fwd.phase == Starting && s.closed
    case OfForward(MarshalFails) => s.fwd.phase == Starting && !s.closed
    case OfForward(Register) => s.fwd.phase == Starting && !s.closed
    case OfForward(Emit) => s.fwd.phase == Forwarding && s.chan.buffer != []
    case OfForward(GetResponse) => s.fwd.phase == Forwarding && s.rpc.respCh.Some?
    case OfForward(OnCancel) => s.fwd.phase == Forwarding && s.cancelled
    case OfForward(OnClosed) => s.fwd.phase == Forwarding && s.closed
    case OfForward(DrainOne) => s.fwd.phase.Draining? && s.chan.buffer != []
    case OfForward(Finish) => s.fwd.phase.Draining? && s.chan.buffer == []
  }

  function ToEvent(d: Delta): Event { Event(d.kind, d.text) }

  function ClosingEvent(how: Ending): Event {
    if how == ByResponse(Reply(true)) then Event(StreamDone, "") else Event(StreamError, "")
  }

  function Next(c: Call, s: State, a: Action): State
    requires Enabled(s, a)
  {
    match a
    case Writes(line) => s.(pipe := s.pipe.(sent := s.pipe.sent + [line]))
    case Cancel => s.(cancelled := true)
    case OfReader(r) => NextReader(c, s, r)
    case OfRequest(r) => s.(rpc := NextRpc(s.rpc, r))
    case OfForward(f) => NextForward(s, f)
  }

  function NextReader(c: Call, s: State, r: ReaderAct): State
    requires Enabled(s, OfReader(r))
  {
    match r
    case Take => TakeLine(c, s, s.pipe.sent[s.pipe.read])
    case Push =>
      s.(pipe := s.pipe.(reader := Idle),
         chan := if |s.chan.buffer| < CAPACITY
                 then s.chan.(buffer := s.chan.buffer + [s.pipe.reader.delta], pushed := s.chan.pushed + [s.pipe.reader.delta])
                 else s.chan.(dropped := s.chan.dropped + 1))
    case Answer => s.(pipe := s.pipe.(reader := Idle), rpc := s.rpc.(replyCh := Some(s.pipe.reader.ok)))
    case Exit => s.(pipe := s.pipe.(reader := Exited), closed := true)
  }

  /** The read loop looks a line up: a delta while its channel is registered, a reply while its call is pending. */
  function TakeLine(c: Call, s: State, line: Line): State {
    var next := s.pipe.read + 1;
    if line.DeltaLine? && line.rid == c.rid && s.fwd.phase != Starting then
      s.(pipe := Pipe(s.pipe.sent, next, if s.chan.registered then Holding(line.delta) else Idle),
         hist := s.hist.(seen := s.hist.seen + [line.delta]))
    else if line.ReplyLine? && line.id == c.id && s.rpc.pending then
      s.(pipe := Pipe(s.pipe.sent, next, HoldingReply(line.ok)), rpc := s.rpc.(pending := false),
         hist := s.hist.(accepted := Some(s.pipe.read), seenThen := s.hist.seen))
    else
      s.(pipe := s.pipe.(read := next))
  }

  function NextRpc(r: Rpc, a: RequestAct): Rpc
    requires a.GetReply? ==> r.replyCh.Some?
  {
    match a
    case Send => r.(requester := Waiting, pending := true)
    case SendFails => r.(requester := Returned, respCh := Some(Failed))
    case GetReply => Rpc(r.pending, None, Returned, Some(Reply(r.replyCh.value)))
    case SeeCancel => Rpc(false, r.replyCh, Returned, Some(Failed))
    case SeeClosed => Rpc(false, r.replyCh, Returned, Some(Failed))
  }

  function NextForward(s: State, f: ForwardAct): State
    requires Enabled(s, OfForward(f))
  {
    match f
    case Refuse => Close(s.(hist := s.hist.(start := s.pipe.read)), Refused)
    case MarshalFails => Close(s.(hist := s.hist.(start := s.pipe.read)), Refused)   // nobody drains the channel it leaves behind
    case Register =>
      s.(fwd := s.fwd.(phase := Forwarding), chan := s.chan.(registered := true),
         rpc := s.rpc.(requester := Spawned), hist := s.hist.(start := s.pipe.read))
    case Emit => EmitOne(s)
    case GetResponse =>
      s.(chan := s.chan.(registered := false), fwd := s.fwd.(phase := Draining(s.rpc.respCh.value)), rpc := s.rpc.(respCh := None))
    case OnCancel => Close(s, ByCancel)
    case OnClosed => Close(s, ByCrash)
    case DrainOne => EmitOne(s)
    case Finish => Close(s, ByResponse(s.fwd.phase.resp))
  }

  function EmitOne(s: State): State
    requires s.chan.buffer != []
  {
    s.(chan := s.chan.(buffer := s.chan.buffer[1..]), fwd := s.fwd.(out := s.fwd.out + [ToEvent(s.chan.buffer[0])]))
  }

  function Close(s: State, how: Ending): State {
    s.(chan := s.chan.(registered := false), fwd := Forward(Closed(how), s.fwd.out + [ClosingEvent(how)]))
  }

  /** The state after a list of actions from the initial state; None if one of them was not possible. */
  function Exec(c: Call, acts: seq<Action>): Option<State> {
    if acts == [] then Some(INIT)
    else
      match Exec(c, acts[..|acts| - 1])
      case None => None
      case Some(s) => if Enabled(s, acts[|acts| - 1]) then Some(Next(c, s, acts[|acts| - 1])) else None
  }

  // ----- what was sent, what came out -----

  /** The deltas of this call among the given lines, in order. */
  function Deltas(c: Call, lines: seq<Line>): seq<Delta> {
    if lines == [] then []
    else
      var rest := Deltas(c, lines[..|lines| - 1]);
      match lines[|lines| - 1]
      case DeltaLine(rid, d) => if rid == c.rid then rest + [d] else rest
      case _ => rest
  }

  lemma DeltasSnoc(c: Call, lines: seq<Line>, l: Line)
    ensures Deltas(c, lines + [l]) == Deltas(c, lines) + if l.DeltaLine? && l.rid == c.rid then [l.delta] else []
  {
    assert (lines + [l])[..|lines|] == lines;
  }

  lemma {:induction false} DeltasPrefix(c: Call, xs: seq<Line>, k: nat)
    requires k <= |xs|
    ensures Deltas(c, xs[..k]) <= Deltas(c, xs)
  {
    if k < |xs| {
      var front := xs[..|xs| - 1];
      DeltasPrefix(c, front, k);
      assert front[..k] == xs[..k];
      assert xs == front + [xs[|xs| - 1]];
    } else {
      assert xs[..k] == xs;
    }
  }

  function Events(ds: seq<Delta>): (es: seq<Event>)
    ensures |es| == |ds| && forall i | 0 <= i < |ds| :: es[i] == ToEvent(ds[i])
  {
    seq(|ds|, i requires 0 <= i < |ds| => ToEvent(ds[i]))
  }

  // ----- the invariant -----

  /** The deltas that reached the channel, and the one the read loop is about to put there. */
  function Gathered(p: Pipe, ch: Channel): seq<Delta> {
    if p.reader.Holding? then ch.pushed + [p.reader.delta] else ch.pushed
  }

  predicate Buffered(ch: Channel) {
    && |ch.buffer| <= |ch.pushed| && |ch.buffer| <= CAPACITY
    && ch.buffer == ch.pushed[|ch.pushed| - |ch.buffer|..]
  }

  function Taken(ch: Channel): seq<Delta>
    requires |ch.buffer| <= |ch.pushed|
  {
    ch.pushed[..|ch.pushed| - |ch.buffer|]
  }

  /** Everything emitted so far: the forwarded deltas, then one closing event once the forwarder is done. */
  predicate Emitted(ch: Channel, f: Forward) {
    && Buffered(ch)
    && f.out == Events(Taken(ch)) + if f.phase.Closed? then [ClosingEvent(f.phase.how)] else []
  }

  /** What was gathered is a subsequence of what was seen; without a drop, a prefix of it, and all of it while registered. */
  ghost predicate Filed(p: Pipe, ch: Channel, seen: seq<Delta>) {
    && Subseq(Gathered(p, ch), seen)
    && (ch.dropped == 0 ==> Gathered(p, ch) <= seen)
    && (ch.dropped == 0 && ch.registered ==> Gathered(p, ch) == seen)
    && (ch.registered ==> |Gathered(p, ch)| + ch.dropped == |seen|)
  }

  predicate Fresh(s: State) {
    s.fwd.phase == Starting ==>
      && Gathered(s.pipe, s.chan) == [] && s.hist.seen == [] && s.chan.dropped == 0
      && s.hist.accepted == None && s.rpc.respCh == None
  }

  /** The threads' control states fit together. */
  predicate Roles(s: State) {
    && (s.chan.registered <==> s.fwd.phase == Forwarding)
    && (s.rpc.requester.NotSpawned? <==> s.fwd.phase == Starting || s.fwd.phase == Closed(Refused))
    && (s.rpc.pending ==> s.rpc.requester == Waiting && s.hist.accepted == None)
    && (s.rpc.requester.NotSpawned? || s.rpc.requester.Spawned? ==> s.hist.accepted == None)
    && (s.rpc.respCh.Some? || s.fwd.phase.Draining? || EndedByResponse(s.fwd) ==> s.rpc.requester == Returned)
    && (s.fwd.phase.Draining? || EndedByResponse(s.fwd) ==> s.rpc.respCh == None)
    && (s.pipe.reader.HoldingReply? ==> s.rpc.replyCh == None)
  }

  predicate EndedByResponse(f: Forward) { f.phase.Closed? && f.phase.how.ByResponse? }
  predicate EndedByReply(f: Forward) { EndedByResponse(f) && f.phase.how.resp.Reply? }
  predicate DrainingReply(f: Forward) { f.phase.Draining? && f.phase.resp.Reply? }

  /** A reply in transit anywhere is the accepted one. */
  predicate Replies(s: State) {
    && (s.pipe.reader.HoldingReply? || s.rpc.replyCh.Some? ==> s.hist.accepted.Some?)
    && (s.rpc.respCh.Some? && s.rpc.respCh.value.Reply? ==> s.hist.accepted.Some?)
    && (DrainingReply(s.fwd) || EndedByReply(s.fwd) ==> s.hist.accepted.Some?)
  }

  /** Without drops, everything seen before the reply is in the channel for as long as the reply may still end the stream. */
  predicate EarlierFiled(s: State) {
    s.chan.dropped == 0 && s.hist.accepted.Some? && (s.chan.registered || DrainingReply(s.fwd) || EndedByReply(s.fwd))
    ==> s.hist.seenThen <= s.chan.pushed
  }

  ghost predicate Inv(s: State) {
    && Emitted(s.chan, s.fwd) && Filed(s.pipe, s.chan, s.hist.seen)
    && Fresh(s) && Roles(s) && Replies(s) && EarlierFiled(s)
  }

  lemma NextKeepsInv(c: Call, s: State, a: Action)
    requires Inv(s) && Enabled(s, a)
    ensures Inv(Next(c, s, a))
  {
    KeepsEmitted(c, s, a);
    KeepsFiled(c, s, a);
    KeepsControl(c, s, a);
  }

  lemma KeepsEmitted(c: Call, s: State, a: Action)
    requires Emitted(s.chan, s.fwd) && Enabled(s, a)
    ensures Emitted(Next(c, s, a).chan, Next(c, s, a).fwd)
  {
    match a
    case OfReader(Push) => if |s.chan.buffer| < CAPACITY { PushKeepsEmitted(s.chan, s.fwd, s.pipe.reader.delta); }
    case OfForward(f) => ForwardKeepsEmitted(s, f);
    case _ => assert Next(c, s, a).chan == s.chan && Next(c, s, a).fwd == s.fwd;
  }

  lemma ForwardKeepsEmitted(s: State, f: ForwardAct)
    requires Emitted(s.chan, s.fwd) && Enabled(s, OfForward(f))
    ensures Emitted(NextForward(s, f).chan, NextForward(s, f).fwd)
  {
    if f.Emit? || f.DrainOne? {
      EmitKeepsEmitted(s.chan, s.fwd);
    } else {
      assert Taken(NextForward(s, f).chan) == Taken(s.chan);
    }
  }

  lemma PushKeepsEmitted(ch: Channel, f: Forward, d: Delta)
    requires Emitted(ch, f) && |ch.buffer| < CAPACITY
    ensures Emitted(ch.(buffer := ch.buffer + [d], pushed := ch.pushed + [d]), f)
  {
    var t := ch.(buffer := ch.buffer + [d], pushed := ch.pushed + [d]);
    assert Taken(t) == Taken(ch);
    assert t.buffer == t.pushed[|t.pushed| - |t.buffer|..];
  }

  lemma EmitKeepsEmitted(ch: Channel, f: Forward)
    requires Emitted(ch, f) && ch.buffer != [] && !f.phase.Closed?
    ensures Emitted(ch.(buffer := ch.buffer[1..]), f.(out := f.out + [ToEvent(ch.buffer[0])]))
  {
    var t := ch.(buffer := ch.buffer[1..]);
    assert Taken(t) == Taken(ch) + [ch.buffer[0]];
    assert Events(Taken(t)) == Events(Taken(ch)) + [ToEvent(ch.buffer[0])];
    assert t.buffer == t.pushed[|t.pushed| - |t.buffer|..];
  }

  lemma KeepsFiled(c: Call, s: State, a: Action)
    requires Filed(s.pipe, s.chan, s.hist.seen) && Fresh(s) && Enabled(s, a)
    ensures var t := Next(c, s, a); Filed(t.pipe, t.chan, t.hist.seen)
  {
    match a
    case OfReader(r) => ReaderKeepsFiled(c, s, r);
    case OfForward(f) => UnfiledForward(s, f);
    case _ => assert Next(c, s, a).pipe.reader == s.pipe.reader;
  }

  lemma ReaderKeepsFiled(c: Call, s: State, r: ReaderAct)
    requires Filed(s.pipe, s.chan, s.hist.seen) && Enabled(s, OfReader(r))
    ensures var t := NextReader(c, s, r); Filed(t.pipe, t.chan, t.hist.seen)
  {
    match r
    case Take => TakeKeepsFiled(c, s);
    case Push => PushKeepsFiled(c, s);
    case Answer => assert Gathered(NextReader(c, s, r).pipe, s.chan) == Gathered(s.pipe, s.chan);
    case Exit => assert Gathered(NextReader(c, s, r).pipe, s.chan) == Gathered(s.pipe, s.chan);
  }

  lemma TakeKeepsFiled(c: Call, s: State)
    requires Filed(s.pipe, s.chan, s.hist.seen) && Enabled(s, OfReader(Take))
    ensures var t := NextReader(c, s, Take); Filed(t.pipe, t.chan, t.hist.seen)
  {
    var line := s.pipe.sent[s.pipe.read];
    if line.DeltaLine? && line.rid == c.rid && s.fwd.phase != Starting {
      SeeDelta(s.pipe, s.chan, s.hist.seen, line.delta);
    } else {
      assert Gathered(NextReader(c, s, Take).pipe, s.chan) == Gathered(s.pipe, s.chan);
    }
  }

  lemma PushKeepsFiled(c: Call, s: State)
    requires Filed(s.pipe, s.chan, s.hist.seen) && Enabled(s, OfReader(Push))
    ensures var t := NextReader(c, s, Push); Filed(t.pipe, t.chan, t.hist.seen)
  {
    FileDelta(s.pipe, s.chan, s.hist.seen);
    assert Gathered(NextReader(c, s, Push).pipe, NextReader(c, s, Push).chan) ==
           if |s.chan.buffer| < CAPACITY then Gathered(s.pipe, s.chan) else s.chan.pushed;
  }

  lemma UnfiledForward(s: State, f: ForwardAct)
    requires Filed(s.pipe, s.chan, s.hist.seen) && Fresh(s) && Enabled(s, OfForward(f))
    ensures var t := NextForward(s, f); Filed(t.pipe, t.chan, t.hist.seen)
  {
    assert Gathered(s.pipe, NextForward(s, f).chan) == Gathered(s.pipe, s.chan);
  }

  lemma SeeDelta(p: Pipe, ch: Channel, seen: seq<Delta>, d: Delta)
    requires Filed(p, ch, seen) && p.reader == Idle
    ensures Filed(p.(reader := if ch.registered then Holding(d) else Idle), ch, seen + [d])
  {
    if ch.registered { SubseqKeep(ch.pushed, seen, d); } else { SubseqSkip(ch.pushed, seen, d); }
  }

  lemma FileDelta(p: Pipe, ch: Channel, seen: seq<Delta>)
    requires Filed(p, ch, seen) && p.reader.Holding?
    ensures Subseq(ch.pushed, seen)
  {
    SubseqFront(Gathered(p, ch), seen);
    assert Gathered(p, ch)[..|ch.pushed|] == ch.pushed;
  }

  ghost predicate Control(s: State) {
    Filed(s.pipe, s.chan, s.hist.seen) && Fresh(s) && Roles(s) && Replies(s) && EarlierFiled(s)
  }

  lemma KeepsControl(c: Call, s: State, a: Action)
    requires Control(s) && Enabled(s, a)
    ensures var t := Next(c, s, a); Fresh(t) && Roles(t) && Replies(t) && EarlierFiled(t)
  {
    match a
    case OfReader(r) => ReaderKeepsControl(c, s, r);
    case OfRequest(r) => RequestKeepsControl(s, r);
    case OfForward(f) => ForwardKeepsControl(s, f);
    case _ =>
  }

  lemma ReaderKeepsControl(c: Call, s: State, r: ReaderAct)
    requires Control(s) && Enabled(s, OfReader(r))
    ensures var t := NextReader(c, s, r); Fresh(t) && Roles(t) && Replies(t) && EarlierFiled(t)
  {}

  lemma RequestKeepsControl(s: State, r: RequestAct)
    requires Control(s) && Enabled(s, OfRequest(r))
    ensures var t := s.(rpc := NextRpc(s.rpc, r)); Fresh(t) && Roles(t) && Replies(t) && EarlierFiled(t)
  {}

  lemma ForwardKeepsControl(s: State, f: ForwardAct)
    requires Control(s) && Enabled(s, OfForward(f))
    ensures var t := NextForward(s, f); Fresh(t) && Roles(t) && Replies(t) && EarlierFiled(t)
  {}

  // ----- what the history fields mean -----

  predicate Recorded(c: Call, s: State) {
    && s.pipe.read <= |s.pipe.sent|
    && (s.fwd.phase != Starting ==>
          s.hist.start <= s.pipe.read && s.hist.seen == Deltas(c, s.pipe.sent[s.hist.start..s.pipe.read]))
    && (s.hist.accepted.Some? ==>
          var k := s.hist.accepted.value;
          && s.fwd.phase != Starting && s.hist.start <= k < s.pipe.read
          && s.hist.seenThen == Deltas(c, s.pipe.sent[s.hist.start..k])
          && s.pipe.sent[k].ReplyLine? && s.pipe.sent[k].id == c.id
          && OutcomeIs(s, s.pipe.sent[k].ok))
  }

  /** Wherever a reply is in transit, it says `ok`. */
  predicate OutcomeIs(s: State, ok: bool) {
    && (s.pipe.reader.HoldingReply? ==> s.pipe.reader.ok == ok)
    && (s.rpc.replyCh.Some? ==> s.rpc.replyCh.value == ok)
    && (s.rpc.respCh.Some? && s.rpc.respCh.value.Reply? ==> s.rpc.respCh.value.ok == ok)
    && (DrainingReply(s.fwd) ==> s.fwd.phase.resp.ok == ok)
    && (EndedByReply(s.fwd) ==> s.fwd.phase.how.resp.ok == ok)
  }

  lemma KeepsRecorded(c: Call, s: State, a: Action)
    requires Recorded(c, s) && Fresh(s) && Roles(s) && Replies(s) && Enabled(s, a)
    ensures Recorded(c, Next(c, s, a))
  {
    match a
    case Writes(line) => WriteKeepsRecorded(c, s, line);
    case OfReader(Take) => TakeKeepsRecorded(c, s);
    case OfForward(f) => ForwardKeepsRecorded(c, s, f);
    case _ =>
  }

  lemma WriteKeepsRecorded(c: Call, s: State, line: Line)
    requires Recorded(c, s)
    ensures Recorded(c, s.(pipe := s.pipe.(sent := s.pipe.sent + [line])))
  {
    var sent := s.pipe.sent + [line];
    if s.fwd.phase != Starting {
      assert sent[s.hist.start..s.pipe.read] == s.pipe.sent[s.hist.start..s.pipe.read];
      if s.hist.accepted.Some? {
        assert sent[s.hist.start..s.hist.accepted.value] == s.pipe.sent[s.hist.start..s.hist.accepted.value];
      }
    }
  }

  lemma TakeKeepsRecorded(c: Call, s: State)
    requires Recorded(c, s) && Fresh(s) && Roles(s) && Replies(s) && Enabled(s, OfReader(Take))
    ensures Recorded(c, NextReader(c, s, Take))
  {
    var line := s.pipe.sent[s.pipe.read];
    if s.fwd.phase == Starting {
      assert !s.rpc.pending && s.hist.accepted == None;
    } else {
      DeltasTake(c, s);
      if line.ReplyLine? && line.id == c.id && s.rpc.pending {
        assert s.hist.accepted == None;
      }
    }
  }

  /** One more line is read: its delta, if it is one of this call, joins those seen. */
  lemma DeltasTake(c: Call, s: State)
    requires s.hist.start <= s.pipe.read < |s.pipe.sent|
    ensures var line := s.pipe.sent[s.pipe.read];
            Deltas(c, s.pipe.sent[s.hist.start..s.pipe.read + 1]) ==
            Deltas(c, s.pipe.sent[s.hist.start..s.pipe.read]) + if line.DeltaLine? && line.rid == c.rid then [line.delta] else []
  {
    var lines, line := s.pipe.sent[s.hist.start..s.pipe.read], s.pipe.sent[s.pipe.read];
    assert s.pipe.sent[s.hist.start..s.pipe.read + 1] == lines + [line];
    DeltasSnoc(c, lines, line);
  }

  lemma ForwardKeepsRecorded(c: Call, s: State, f: ForwardAct)
    requires Recorded(c, s) && Fresh(s) && Roles(s) && Replies(s) && Enabled(s, OfForward(f))
    ensures Recorded(c, NextForward(s, f))
  {
    assert s.pipe.sent[s.pipe.read..s.pipe.read] == [];
  }

  lemma {:induction false} ReachableInv(c: Call, acts: seq<Action>)
    requires Exec(c, acts).Some?
    ensures var s := Exec(c, acts).value; Inv(s) && Recorded(c, s)
  {
    if acts != [] {
      var front, a := acts[..|acts| - 1], acts[|acts| - 1];
      ReachableInv(c, front);
      NextKeepsInv(c, Exec(c, front).value, a);
      KeepsRecorded(c, Exec(c, front).value, a);
    }
  }

  // ----- main results -----

  /** The deltas the caller received. */
  function Forwarded(s: State): seq<Delta>
    requires |s.chan.buffer| <= |s.chan.pushed|
  {
    Taken(s.chan)
  }

  /** Of the deltas read while the channel is registered, each was pushed, is about to be, or was counted as dropped. */
  lemma EachPushedOrDropped(c: Call, acts: seq<Action>)
    requires Exec(c, acts).Some? && Exec(c, acts).value.chan.registered
    ensures var s := Exec(c, acts).value;
            && s.hist.start <= s.pipe.read <= |s.pipe.sent|
            && |s.chan.pushed| + s.chan.dropped + (if s.pipe.reader.Holding? then 1 else 0) ==
            |Deltas(c, s.pipe.sent[s.hist.start..s.pipe.read])|
  {
    ReachableInv(c, acts);
  }

  /** A delta is dropped exactly when 256 of them wait to be forwarded. */
  lemma DroppedIffFull(c: Call, s: State)
    requires Enabled(s, OfReader(Push))
    ensures var t := Next(c, s, OfReader(Push));
            if |s.chan.buffer| >= 256 then t.chan == s.chan.(dropped := s.chan.dropped + 1)
            else t.chan.pushed == s.chan.pushed + [s.pipe.reader.delta] && t.chan.buffer == s.chan.buffer + [s.pipe.reader.delta]
                 && t.chan.dropped == s.chan.dropped
  {}

  /**
   A stream that is refused, or whose request cannot be marshalled, ends at once with an error; a request that cannot be
   sent, is cancelled or sees the host closed answers with a failure, a reply with what it says.
   */
  lemma FailuresAnswer(c: Call, s: State, a: Action)
    requires Enabled(s, a)
    ensures var t := Next(c, s, a);
            && (a == OfForward(Refuse) || a == OfForward(MarshalFails) ==>
                  t.fwd == Forward(Closed(Refused), s.fwd.out + [Event(StreamError, "")]) && t.rpc == s.rpc)
            && (a in {OfRequest(SendFails), OfRequest(SeeCancel), OfRequest(SeeClosed)} ==>
                  t.rpc.requester == Returned && t.rpc.respCh == Some(Failed))
            && (a == OfRequest(GetReply) ==> t.rpc.requester == Returned && t.rpc.respCh == Some(Reply(s.rpc.replyCh.value)))
            && (a == OfForward(GetResponse) ==> t.fwd.phase == Draining(s.rpc.respCh.value) && t.fwd.out == s.fwd.out)
  {}

  lemma OutputIs(c: Call, acts: seq<Action>)
    requires Exec(c, acts).Some? && Exec(c, acts).value.fwd.phase.Closed?
    ensures var s := Exec(c, acts).value;
            && |s.chan.buffer| <= |s.chan.pushed|
            && s.fwd.out == Events(Forwarded(s)) + [ClosingEvent(s.fwd.phase.how)]
            && s.hist.start <= |s.pipe.sent| && Subseq(Forwarded(s), Deltas(c, s.pipe.sent[s.hist.start..]))
  {
    ReachableInv(c, acts);
    ForwardedIsSubseq(c, Exec(c, acts).value);
  }

  /**
   In every interleaving, once the stream is over, the caller has received an
   in-order subsequence of the deltas the extension sent, each with its kind and
   text, then exactly one closing event, done or an error; it is done if and only
   if the stream was closed by the extension's own successful reply to this call.
   */
  lemma StreamIsDeltasThenOneClosing(c: Call, acts: seq<Action>)
    requires Exec(c, acts).Some? && Exec(c, acts).value.fwd.phase.Closed?
    ensures var s := Exec(c, acts).value; var how := s.fwd.phase.how;
            && |s.chan.buffer| <= |s.chan.pushed| && s.hist.start <= |s.pipe.sent|
            && |s.fwd.out| == |Forwarded(s)| + 1
            && (forall i | 0 <= i < |Forwarded(s)| ::
                  s.fwd.out[i].kind == Forwarded(s)[i].kind && s.fwd.out[i].text == Forwarded(s)[i].text)
            && s.fwd.out[|Forwarded(s)|].text == ""
            && s.fwd.out[|Forwarded(s)|].kind == (if how == ByResponse(Reply(true)) then StreamDone else StreamError)
            && Subseq(Forwarded(s), Deltas(c, s.pipe.sent[s.hist.start..]))
            && (how == ByResponse(Reply(true)) ==> ReplyLine(c.id, true) in s.pipe.sent)
  {
    ReachableInv(c, acts);
    OutputIs(c, acts);
    SuccessMeansReply(c, Exec(c, acts).value);
  }

  lemma ForwardedIsSubseq(c: Call, s: State)
    requires Emitted(s.chan, s.fwd) && Filed(s.pipe, s.chan, s.hist.seen) && Fresh(s) && Recorded(c, s)
    requires s.fwd.phase != Starting
    ensures s.hist.start <= |s.pipe.sent| && Subseq(Forwarded(s), Deltas(c, s.pipe.sent[s.hist.start..]))
  {
    TakenIsSubseq(s.pipe, s.chan, s.hist.seen);
    SeenIsPrefix(c, s.pipe.sent, s.hist.start, s.pipe.read);
    SubseqOfPrefix(Taken(s.chan), s.hist.seen, Deltas(c, s.pipe.sent[s.hist.start..]));
  }

  lemma TakenIsSubseq(p: Pipe, ch: Channel, seen: seq<Delta>)
    requires Buffered(ch) && Subseq(Gathered(p, ch), seen)
    ensures Subseq(Taken(ch), seen)
  {
    SubseqPrefix(Gathered(p, ch), seen, |Taken(ch)|);
    assert Gathered(p, ch)[..|Taken(ch)|] == Taken(ch);
  }

  lemma SeenIsPrefix(c: Call, sent: seq<Line>, start: nat, read: nat)
    requires start <= read <= |sent|
    ensures Deltas(c, sent[start..read]) <= Deltas(c, sent[start..])
  {
    assert sent[start..][..read - start] == sent[start..read];
    DeltasPrefix(c, sent[start..], read - start);
  }

  lemma SuccessMeansReply(c: Call, s: State)
    requires Roles(s) && Replies(s) && Recorded(c, s) && s.fwd.phase.Closed?
    ensures ClosingEvent(s.fwd.phase.how).kind == StreamDone ==> ReplyLine(c.id, true) in s.pipe.sent
  {
    if ClosingEvent(s.fwd.phase.how).kind == StreamDone {
      assert s.pipe.sent[s.hist.accepted.value] == ReplyLine(c.id, true);
    }
  }

  lemma {:induction false} SubseqOfPrefix<T>(xs: seq<T>, ys: seq<T>, zs: seq<T>)
    requires Subseq(xs, ys) && ys <= zs
    ensures Subseq(xs, zs)
    decreases |zs|
  {
    if |ys| == |zs| {
      assert ys == zs;
    } else {
      SubseqOfPrefix(xs, ys, zs[..|zs| - 1]);
      assert zs == zs[..|zs| - 1] + [zs[|zs| - 1]];
      SubseqSkip(xs, zs[..|zs| - 1], zs[|zs| - 1]);
    }
  }
}
