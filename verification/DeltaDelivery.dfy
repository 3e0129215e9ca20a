/** What a finished stream has delivered, and that it does finish. */
module DeltaDelivery {
  import opened Prelude
  import opened DeltaRuns
  import opened DeltaStream
  import opened Subsequences

  /**
   A stream ended by the reply, with the channel never found full: the caller has
   everything sent before the reply, and beyond that only deltas that followed it.
   */
  lemma NothingLostBeforeReply(c: Call, acts: seq<Action>)
    requires Exec(c, acts).Some? && EndedByReply(Exec(c, acts).value.fwd) && Exec(c, acts).value.chan.dropped == 0
    ensures var s := Exec(c, acts).value;
            && s.hist.accepted.Some? && s.hist.start <= s.hist.accepted.value < |s.pipe.sent|
            && |s.chan.buffer| <= |s.chan.pushed|
            && var k := s.hist.accepted.value;
            && s.pipe.sent[k] == ReplyLine(c.id, s.fwd.phase.how.resp.ok)
            && Deltas(c, s.pipe.sent[s.hist.start..k]) <= Forwarded(s)
            && Forwarded(s) <= Deltas(c, s.pipe.sent[s.hist.start..])
  {
    ReachableInv(c, acts);
    ReachableDrained(c, acts);
    DrainedIsDelivered(c, Exec(c, acts).value);
  }

  lemma DrainedIsDelivered(c: Call, s: State)
    requires Inv(s) && Recorded(c, s) && Drained(s) && EndedByReply(s.fwd) && s.chan.dropped == 0 && s.hist.accepted.Some?
    ensures s.hist.seenThen <= Forwarded(s) && Forwarded(s) <= Deltas(c, s.pipe.sent[s.hist.start..])
  {
    assert Taken(s.chan) <= s.chan.pushed <= Gathered(s.pipe, s.chan) <= s.hist.seen;
    SeenIsPrefix(c, s.pipe.sent, s.hist.start, s.pipe.read);
  }

  /** When a response ends the stream, what the channel held before the reply has been drained into the output. */
  predicate Drained(s: State) {
    s.chan.dropped == 0 && EndedByReply(s.fwd) ==>
      |s.chan.buffer| <= |s.chan.pushed| && s.hist.seenThen <= Taken(s.chan)
  }

  lemma NextKeepsDrained(c: Call, s: State, a: Action)
    requires Drained(s) && Inv(s) && Enabled(s, a)
    ensures Drained(Next(c, s, a))
  {
    match a
    case OfReader(r) => ReaderKeepsDrained(c, s, r);
    case OfForward(f) => ForwardKeepsDrained(s, f);
    case _ =>
  }

  lemma ReaderKeepsDrained(c: Call, s: State, r: ReaderAct)
    requires Drained(s) && Inv(s) && Enabled(s, OfReader(r))
    ensures Drained(NextReader(c, s, r))
  {
    if r.Push? { assert Taken(NextReader(c, s, r).chan) == Taken(s.chan); }
  }

  lemma ForwardKeepsDrained(s: State, f: ForwardAct)
    requires Buffered(s.chan) && Replies(s) && EarlierFiled(s) && Enabled(s, OfForward(f))
    ensures Drained(NextForward(s, f))
  {
    if f.Finish? { assert Taken(s.chan) == s.chan.pushed; }
  }

  lemma {:induction false} ReachableDrained(c: Call, acts: seq<Action>)
    requires Exec(c, acts).Some?
    ensures Drained(Exec(c, acts).value)
  {
    if acts != [] {
      ReachableDrained(c, acts[..|acts| - 1]);
      ReachableInv(c, acts[..|acts| - 1]);
      NextKeepsDrained(c, Exec(c, acts[..|acts| - 1]).value, acts[|acts| - 1]);
    }
  }

  /** The extension writes no delta of this call after its reply. */
  predicate QuietAfter(c: Call, sent: seq<Line>, k: nat) {
    forall i | k < i < |sent| :: !(sent[i].DeltaLine? && sent[i].rid == c.rid)
  }

  /** For such an extension the caller receives exactly the deltas sent before the reply. */
  lemma QuietStreamIsExact(c: Call, acts: seq<Action>)
    requires Exec(c, acts).Some? && EndedByReply(Exec(c, acts).value.fwd) && Exec(c, acts).value.chan.dropped == 0
    requires var s := Exec(c, acts).value; s.hist.accepted.Some? && QuietAfter(c, s.pipe.sent, s.hist.accepted.value)
    ensures var s := Exec(c, acts).value;
            && |s.chan.buffer| <= |s.chan.pushed| && s.hist.accepted.Some? && s.hist.start <= s.hist.accepted.value < |s.pipe.sent|
            && Forwarded(s) == Deltas(c, s.pipe.sent[s.hist.start..s.hist.accepted.value])
  {
    NothingLostBeforeReply(c, acts);
    var s := Exec(c, acts).value;
    var k := s.hist.accepted.value;
    NoDeltasAfter(c, s.pipe.sent[s.hist.start..], k - s.hist.start);
    assert s.pipe.sent[s.hist.start..][..k - s.hist.start] == s.pipe.sent[s.hist.start..k];
  }

  lemma {:induction false} NoDeltasAfter(c: Call, xs: seq<Line>, k: nat)
    requires k < |xs| && xs[k].ReplyLine? && QuietAfter(c, xs, k)
    ensures Deltas(c, xs) == Deltas(c, xs[..k])
  {
    var front := xs[..|xs| - 1];
    if k == |front| {
      assert xs == xs[..k] + [xs[k]];
    } else {
      NoDeltasAfter(c, front, k);
      assert front[..k] == xs[..k];
    }
    assert xs == front + [xs[|xs| - 1]];
    DeltasSnoc(c, front, xs[|xs| - 1]);
  }

  /** The run wrote this log and ended with the reply at k, without a drop. */
  predicate EndsWithReply(c: Call, acts: seq<Action>, sent: seq<Line>, k: nat) {
    && Exec(c, acts).Some?
    && var s := Exec(c, acts).value;
       s.pipe.sent == sent && EndedByReply(s.fwd) && s.hist.accepted == Some(k) && s.chan.dropped == 0
  }

  /** The caller received exactly the deltas read between registration and the accepted reply. */
  predicate Exact(c: Call, s: State) {
    && s.hist.accepted.Some? && s.hist.start <= s.hist.accepted.value <= |s.pipe.sent| && |s.chan.buffer| <= |s.chan.pushed|
    && Forwarded(s) == Deltas(c, s.pipe.sent[s.hist.start..s.hist.accepted.value])
  }

  lemma {:induction false} LoudAfter(c: Call, xs: seq<Line>, k: nat, i: nat)
    requires k < i < |xs| && xs[i].DeltaLine? && xs[i].rid == c.rid
    ensures |Deltas(c, xs[..k])| < |Deltas(c, xs)|
  {
    var front := xs[..|xs| - 1];
    assert front[..k] == xs[..k];
    if i < |front| { LoudAfter(c, front, k, i); } else { DeltasPrefix(c, front, k); }
  }

  /**
   For any log and any of its replies to this call: every run that ends with that reply and drops nothing is exact,
   if and only if no delta of this call follows the reply.
   */
  lemma EveryRunExactIff(c: Call, sent: seq<Line>, k: nat)
    requires k < |sent| && sent[k].ReplyLine? && sent[k].id == c.id
    ensures (forall acts | EndsWithReply(c, acts, sent, k) :: Exact(c, Exec(c, acts).value)) <==> QuietAfter(c, sent, k)
  {
    if QuietAfter(c, sent, k) {
      forall acts | EndsWithReply(c, acts, sent, k) ensures Exact(c, Exec(c, acts).value) {
        QuietStreamIsExact(c, acts);
      }
    } else {
      var i :| k < i < |sent| && sent[i].DeltaLine? && sent[i].rid == c.rid;
      LoudAfter(c, sent, k, i);
      var acts, s := DeliverAll(c, sent, k);
      assert EndsWithReply(c, acts, sent, k) && Forwarded(s) == Deltas(c, sent);
      assert !Exact(c, s);
    }
  }

  /** The smallest such log: a delta after the reply is forwarded before the closing event. */
  lemma TrailingDeltaIsForwarded(c: Call, d: Delta) returns (acts: seq<Action>)
    ensures Exec(c, acts).Some?
    ensures var s := Exec(c, acts).value;
            s.pipe.sent == [ReplyLine(c.id, true), DeltaLine(c.rid, d)] && s.fwd.out == [ToEvent(d), Event(StreamDone, "")]
  {
    var reply, delta := ReplyLine(c.id, true), DeltaLine(c.rid, d);
    var s;
    acts, s := DeliverAll(c, [reply, delta], 0);
    assert [] + [reply] == [reply] && [reply] + [delta] == [reply, delta];
    DeltasSnoc(c, [], reply);
    DeltasSnoc(c, [reply], delta);
  }

  // ----- terminal events on the caller's channel -----

  function TerminalCount(es: seq<Event>): nat {
    if es == [] then 0 else TerminalCount(es[..|es| - 1]) + if es[|es| - 1].kind in {StreamDone, StreamError} then 1 else 0
  }

  predicate NoneTerminal(ds: seq<Delta>) { forall d | d in ds :: d.kind != StreamDone && d.kind != StreamError }

  /** The closing event is terminal, and deltas keep the type the extension gave them. */
  lemma OneTerminalInOutput(ds: seq<Delta>, how: Ending)
    ensures TerminalCount(Events(ds) + [ClosingEvent(how)]) == 1 <==> NoneTerminal(ds)
  {
    TerminalCountOfEvents(ds);
    assert (Events(ds) + [ClosingEvent(how)])[..|ds|] == Events(ds);
  }

  lemma {:induction false} TerminalCountOfEvents(ds: seq<Delta>)
    ensures TerminalCount(Events(ds)) == 0 <==> NoneTerminal(ds)
  {
    if ds != [] {
      var front, last := ds[..|ds| - 1], ds[|ds| - 1];
      TerminalCountOfEvents(front);
      assert Events(ds)[..|ds| - 1] == Events(front);
      assert ds == front + [last];
    }
  }

  lemma PartHasNoTerminal(xs: seq<Delta>, ys: seq<Delta>)
    requires Subseq(xs, ys) && NoneTerminal(ys)
    ensures NoneTerminal(xs)
  {
    SubseqIn(xs, ys);
  }

  lemma {:induction false} SuffixDeltas(c: Call, sent: seq<Line>, start: nat, d: Delta)
    requires start <= |sent| && d in Deltas(c, sent[start..])
    ensures d in Deltas(c, sent)
  {
    var n := |sent| - 1;
    assert start <= n;
    assert sent[start..][..n - start] == sent[..n][start..];
    if d in Deltas(c, sent[..n][start..]) { SuffixDeltas(c, sent[..n], start, d); }
  }

  /** The run wrote this log, and its stream is over. */
  predicate Ends(c: Call, acts: seq<Action>, sent: seq<Line>) {
    Exec(c, acts).Some? && Exec(c, acts).value.pipe.sent == sent && Exec(c, acts).value.fwd.phase.Closed?
  }

  lemma HarmlessLogEndsOnce(c: Call, acts: seq<Action>, sent: seq<Line>)
    requires Ends(c, acts, sent) && NoneTerminal(Deltas(c, sent))
    ensures TerminalCount(Exec(c, acts).value.fwd.out) == 1
  {
    OutputIs(c, acts);
    var s := Exec(c, acts).value;
    forall d | d in Deltas(c, sent[s.hist.start..]) ensures d in Deltas(c, sent) { SuffixDeltas(c, sent, s.hist.start, d); }
    PartHasNoTerminal(Forwarded(s), Deltas(c, sent[s.hist.start..]));
    OneTerminalInOutput(Forwarded(s), s.fwd.phase.how);
  }

  /**
   For any log: the caller sees exactly one terminal event in every run that wrote it, however the run ended, if and
   only if the extension gave no delta of this call a terminal type.
   */
  lemma OneTerminalEventIff(c: Call, sent: seq<Line>)
    ensures (forall acts | Ends(c, acts, sent) :: TerminalCount(Exec(c, acts).value.fwd.out) == 1) <==>
            NoneTerminal(Deltas(c, sent))
  {
    if NoneTerminal(Deltas(c, sent)) {
      forall acts | Ends(c, acts, sent) ensures TerminalCount(Exec(c, acts).value.fwd.out) == 1 {
        HarmlessLogEndsOnce(c, acts, sent);
      }
    } else {
      var acts, s := DeliverAndCancel(c, sent);
      OneTerminalInOutput(Deltas(c, sent), ByCancel);
      assert Ends(c, acts, sent);
    }
  }

  /** The same when only the runs ended by the reply at k, without a drop, are looked at. */
  lemma OneTerminalEventByReplyIff(c: Call, sent: seq<Line>, k: nat)
    requires k < |sent| && sent[k].ReplyLine? && sent[k].id == c.id
    ensures (forall acts | EndsWithReply(c, acts, sent, k) :: TerminalCount(Exec(c, acts).value.fwd.out) == 1) <==>
            NoneTerminal(Deltas(c, sent))
  {
    if NoneTerminal(Deltas(c, sent)) {
      forall acts | EndsWithReply(c, acts, sent, k) ensures TerminalCount(Exec(c, acts).value.fwd.out) == 1 {
        HarmlessLogEndsOnce(c, acts, sent);
      }
    } else {
      var acts, s := DeliverAll(c, sent, k);
      OneTerminalInOutput(Deltas(c, sent), ByResponse(Reply(sent[k].ok)));
      assert EndsWithReply(c, acts, sent, k);
    }
  }

  /** In a single run of an extension that is silent after its reply, the deltas it wrote before decide. */
  lemma QuietStreamEndsOnceIff(c: Call, acts: seq<Action>)
    requires Exec(c, acts).Some? && EndedByReply(Exec(c, acts).value.fwd) && Exec(c, acts).value.chan.dropped == 0
    requires var s := Exec(c, acts).value; s.hist.accepted.Some? && QuietAfter(c, s.pipe.sent, s.hist.accepted.value)
    ensures var s := Exec(c, acts).value;
            && s.hist.accepted.Some? && s.hist.start <= s.hist.accepted.value < |s.pipe.sent|
            && (TerminalCount(s.fwd.out) == 1 <==> NoneTerminal(Deltas(c, s.pipe.sent[s.hist.start..s.hist.accepted.value])))
  {
    QuietStreamIsExact(c, acts);
    OutputIs(c, acts);
    OneTerminalInOutput(Forwarded(Exec(c, acts).value), Exec(c, acts).value.fwd.phase.how);
  }

  /** A delta typed as the end makes the stream end twice. */
  lemma DoneDeltaEndsTwice(c: Call) returns (acts: seq<Action>)
    ensures Exec(c, acts).Some?
    ensures var s := Exec(c, acts).value;
            && s.pipe.sent == [DeltaLine(c.rid, Delta(StreamDone, "")), ReplyLine(c.id, true)]
            && s.fwd.out == [Event(StreamDone, ""), Event(StreamDone, "")]
  {
    var delta, reply := DeltaLine(c.rid, Delta(StreamDone, "")), ReplyLine(c.id, true);
    var s;
    acts, s := DeliverAll(c, [delta, reply], 1);
    assert [] + [delta] == [delta] && [delta] + [reply] == [delta, reply];
    DeltasSnoc(c, [], delta);
    DeltasSnoc(c, [delta], reply);
  }

  // ----- nobody is stuck -----

  /**
   Once the reply has been read, the call cancelled or the host closed, some host thread can move until the stream is over.
   Before the request is sent, that is whichever of registering and failing to marshal the request leads to.
   */
  lemma NeverStuck(c: Call, acts: seq<Action>) returns (a: Action)
    requires Exec(c, acts).Some?
    requires var s := Exec(c, acts).value;
             (s.hist.accepted.Some? || s.cancelled || s.closed) && !s.fwd.phase.Closed?
    ensures Enabled(Exec(c, acts).value, a) && (a.OfReader? || a.OfForward? || a.OfRequest?)
    ensures a.OfReader? ==> a.reader.Answer?
    ensures a == OfForward(Register) ==> Enabled(Exec(c, acts).value, OfForward(MarshalFails))
  {
    ReachableInv(c, acts);
    ReachableReplyLocated(c, acts);
    var s := Exec(c, acts).value;
    match s.fwd.phase
    case Starting => a := OfForward(if s.closed then Refuse else Register);
    case Draining(_) => a := OfForward(if s.chan.buffer == [] then Finish else DrainOne);
    case Forwarding =>
      if s.cancelled { a := OfForward(OnCancel); }
      else if s.closed { a := OfForward(OnClosed); }
      else if s.rpc.respCh.Some? { a := OfForward(GetResponse); }
      else if s.pipe.reader.HoldingReply? { a := OfReader(Answer); }
      else { a := OfRequest(GetReply); }
  }

  /** While the forwarder waits, an accepted reply is always in exactly one hand. */
  predicate ReplyLocated(s: State) {
    && (s.fwd.phase == Forwarding && s.rpc.requester == Returned ==> s.rpc.respCh.Some?)
    && (s.hist.accepted.Some? && s.rpc.requester == Waiting ==> s.pipe.reader.HoldingReply? || s.rpc.replyCh.Some?)
  }

  lemma {:induction false} ReachableReplyLocated(c: Call, acts: seq<Action>)
    requires Exec(c, acts).Some?
    ensures ReplyLocated(Exec(c, acts).value)
  {
    if acts != [] {
      ReachableReplyLocated(c, acts[..|acts| - 1]);
      ReachableInv(c, acts[..|acts| - 1]);
      KeepsReplyLocated(c, Exec(c, acts[..|acts| - 1]).value, acts[|acts| - 1]);
    }
  }

  lemma KeepsReplyLocated(c: Call, s: State, a: Action)
    requires ReplyLocated(s) && Roles(s) && Enabled(s, a)
    ensures ReplyLocated(Next(c, s, a))
  {}
}
