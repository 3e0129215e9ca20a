/**
 Background compaction: the loop takes a snapshot of the history and hands it to
 a goroutine; when the summary is back it replaces the snapshot's part of the
 history, while the loop, the cap and other writers go on in between.
 */
module Compaction {
  import opened Prelude
  import opened Conversation

  const MIN_MESSAGES: nat := 8

  // ----- the two rewrites of the history -----

  function EffectiveCap(maxMessages: nat): nat { if maxMessages < 4 then 4 else maxMessages }

  /** Over the cap, the first message and the latest ones stay. */
  function Capped(messages: seq<Message>, maxMessages: nat): seq<Message> {
    var limit := EffectiveCap(maxMessages);
    if |messages| <= limit then messages
    else [messages[0]] + messages[|messages| - limit + 1..]
  }

  /** The summary takes the place of as many messages as the snapshot had, unless fewer are left. */
  function Merged(messages: seq<Message>, snapshotLen: nat, compacted: seq<Message>): seq<Message> {
    if compacted == [] || snapshotLen > |messages| then messages
    else compacted + messages[snapshotLen..]
  }

  /** The cap leaves at most max(4, MaxMessages) messages: the first one plus a suffix, and nothing else changes. */
  lemma CapKeepsFirstAndSuffix(messages: seq<Message>, maxMessages: nat)
    ensures var out, limit := Capped(messages, maxMessages), if maxMessages < 4 then 4 else maxMessages;
            && |out| == (if |messages| <= limit then |messages| else limit)
            && (messages != [] ==> out[0] == messages[0] && out[1..] == messages[|messages| - |out| + 1..])
            && (out == messages <==> |messages| <= limit)
  {}

  // ----- the shared state -----

  /**
   A snapshot with what has happened since it was taken: `since` what was appended, `dropped` how many
   messages the cap removed, `replaced` whether the history was overwritten.
   */
  datatype Watch = Watch(snapshot: seq<Message>, since: seq<Message>, dropped: nat, replaced: bool)

  datatype Job = Job(w: Watch, merged: bool)

  /** Where the loop is in starting a compaction: not at all, holding a snapshot, or holding the flag. */
  datatype Loop = Idle | Holding(w: Watch) | Claimed(w: Watch)

  datatype State = State(messages: seq<Message>, compacting: bool, loop: Loop, jobs: seq<Job>)

  datatype Action =
    | Append(ms: seq<Message>)     // the loop, follow-ups, or anyone else
    | Replace(ms: seq<Message>)
    | Cap(maxMessages: nat)
    | Check(threshold: nat)
    | Claim
    | Spawn
    | Merge(j: nat, result: Option<seq<Message>>)
    | Finish(j: nat)

  function MostRecentTokens(messages: seq<Message>): nat {
    if messages == [] then 0
    else if messages[|messages| - 1].Assistant? then messages[|messages| - 1].inputTokens
    else MostRecentTokens(messages[..|messages| - 1])
  }

  /** The context size reported with the latest reply; 0 if there is none. */
  ghost predicate IsLatestTokens(messages: seq<Message>, t: nat) {
    || (t == 0 && forall i | 0 <= i < |messages| :: !messages[i].Assistant?)
    || exists i :: 0 <= i < |messages| && messages[i].Assistant? && messages[i].inputTokens == t &&
                   forall j | i < j < |messages| :: !messages[j].Assistant?
  }

  /** The last assistant message stands at i; there is none if i is -1. */
  ghost predicate LastReplyAt(messages: seq<Message>, i: int) {
    -1 <= i < |messages| && (i >= 0 ==> messages[i].Assistant?) && forall j | i < j < |messages| :: !messages[j].Assistant?
  }

  lemma {:induction false} LastReply(messages: seq<Message>) returns (i: int)
    ensures LastReplyAt(messages, i)
    ensures MostRecentTokens(messages) == if i == -1 then 0 else messages[i].inputTokens
  {
    i := |messages| - 1;
    if messages != [] && !messages[i].Assistant? { i := LastReply(messages[..i]); }
  }

  lemma MostRecentIsLatest(messages: seq<Message>, t: nat)
    ensures IsLatestTokens(messages, t) <==> t == MostRecentTokens(messages)
  {
    var i := LastReply(messages);
    if IsLatestTokens(messages, t) && i >= 0 {
      var k :| 0 <= k < |messages| && messages[k].Assistant? && messages[k].inputTokens == t &&
               forall j | k < j < |messages| :: !messages[j].Assistant?;
      assert k == i;
    }
  }

  predicate Due(messages: seq<Message>, threshold: nat) {
    MostRecentTokens(messages) >= threshold && |messages| >= MIN_MESSAGES
  }

  predicate Enabled(s: State, a: Action) {
    match a
    case Append(_) => true
    case Replace(_) => true
    case Cap(_) => s.loop == Idle
    case Check(_) => s.loop == Idle
    case Claim => s.loop.Holding?
    case Spawn => s.loop.Claimed?
    case Merge(j, _) => j < |s.jobs| && !s.jobs[j].merged
    case Finish(j) => j < |s.jobs| && s.jobs[j].merged
  }

  function SeeAppend(w: Watch, ms: seq<Message>): Watch { w.(since := w.since + ms) }
  function SeeCap(w: Watch, n: nat): Watch { w.(dropped := w.dropped + n) }
  function SeeReplace(w: Watch): Watch { w.(replaced := true) }

  function SeesAppend(ms: seq<Message>): Watch -> Watch { w => SeeAppend(w, ms) }
  function SeesCap(n: nat): Watch -> Watch { w => SeeCap(w, n) }

  function OnLoop(l: Loop, f: Watch -> Watch): Loop {
    match l
    case Idle => Idle
    case Holding(w) => Holding(f(w))
    case Claimed(w) => Claimed(f(w))
  }

  function OnJobs(jobs: seq<Job>, f: Watch -> Watch): seq<Job> {
    seq(|jobs|, i requires 0 <= i < |jobs| => jobs[i].(w := f(jobs[i].w)))
  }

  function Rewrite(s: State, messages: seq<Message>, f: Watch -> Watch): State {
    s.(messages := messages, loop := OnLoop(s.loop, f), jobs := OnJobs(s.jobs, f))
  }

  function OnAppend(s: State, ms: seq<Message>): State {
    Rewrite(s, s.messages + ms, SeesAppend(ms))
  }

  function OnCap(s: State, limit: nat): State {
    Rewrite(s, Capped(s.messages, limit), SeesCap(|s.messages| - |Capped(s.messages, limit)|))
  }

  function OnMerge(s: State, j: nat, result: Option<seq<Message>>): State
    requires j < |s.jobs|
  {
    var done := s.(jobs := s.jobs[j := s.jobs[j].(merged := true)]);
    if result == None || result.value == [] || |s.jobs[j].w.snapshot| > |s.messages| then done
    else Rewrite(done, Merged(s.messages, |s.jobs[j].w.snapshot|, result.value), SeeReplace)
  }

  function Next(s: State, a: Action): State
    requires Enabled(s, a)
  {
    match a
    case Append(ms) => OnAppend(s, ms)
    case Replace(ms) => Rewrite(s, ms, SeeReplace)
    case Cap(limit) => OnCap(s, limit)
    case Check(threshold) => if Due(s.messages, threshold) then s.(loop := Holding(Watch(s.messages, [], 0, false))) else s
    case Claim => if s.compacting then s.(loop := Idle) else s.(compacting := true, loop := Claimed(s.loop.w))
    case Spawn => s.(loop := Idle, jobs := s.jobs + [Job(s.loop.w, false)])
    case Merge(j, result) => OnMerge(s, j, result)
    case Finish(j) => s.(compacting := false, jobs := s.jobs[..j] + s.jobs[j + 1..])
  }

  // ----- at most one in flight -----

  /** The flag is up exactly while one compaction is being started or is running. */
  ghost predicate OneInFlight(s: State) {
    |s.jobs| + (if s.loop.Claimed? then 1 else 0) == if s.compacting then 1 else 0
  }

  // ----- what a snapshot still says about the history -----

  /** Apart from what the cap dropped after the first message, the history is the snapshot plus what came since. */
  ghost predicate Tracks(messages: seq<Message>, w: Watch) {
    var all := w.snapshot + w.since;
    && |w.snapshot| >= MIN_MESSAGES && w.dropped + 1 <= |all|
    && messages == [all[0]] + all[w.dropped + 1..]
  }

  ghost predicate TracksUnlessReplaced(messages: seq<Message>, w: Watch) {
    |w.snapshot| >= MIN_MESSAGES && (!w.replaced ==> Tracks(messages, w))
  }

  ghost predicate Tracked(s: State) {
    && (s.loop != Idle ==> TracksUnlessReplaced(s.messages, s.loop.w))
    && forall j | 0 <= j < |s.jobs| :: TracksUnlessReplaced(s.messages, s.jobs[j].w)
  }

  lemma CapShrinks(messages: seq<Message>, limit: nat)
    ensures |Capped(messages, limit)| <= |messages|
  {}

  lemma AppendTracks(messages: seq<Message>, w: Watch, ms: seq<Message>)
    requires Tracks(messages, w)
    ensures Tracks(messages + ms, SeeAppend(w, ms))
  {
    var all, k := w.snapshot + w.since, w.dropped + 1;
    assert w.snapshot + (w.since + ms) == all + ms;
    FirstAndRest(all, ms, k);
  }

  lemma FirstAndRest(all: seq<Message>, ms: seq<Message>, k: nat)
    requires 0 < k <= |all|
    ensures ([all[0]] + all[k..]) + ms == [(all + ms)[0]] + (all + ms)[k..]
  {}

  lemma CapTracks(messages: seq<Message>, w: Watch, limit: nat)
    requires Tracks(messages, w)
    ensures Tracks(Capped(messages, limit), SeeCap(w, |messages| - |Capped(messages, limit)|))
  {
    var all, cap := w.snapshot + w.since, EffectiveCap(limit);
    if |messages| > cap {
      assert messages[|messages| - cap + 1..] == all[w.dropped + |messages| - cap + 1..];
    }
  }

  lemma RewriteTracked(s: State, messages: seq<Message>, f: Watch -> Watch)
    requires Tracked(s)
    requires forall w | TracksUnlessReplaced(s.messages, w) :: TracksUnlessReplaced(messages, f(w))
    ensures Tracked(Rewrite(s, messages, f))
  {
    var t := Rewrite(s, messages, f);
    forall j | 0 <= j < |t.jobs| ensures TracksUnlessReplaced(messages, t.jobs[j].w) {
      assert TracksUnlessReplaced(s.messages, s.jobs[j].w);
    }
  }

  lemma MergeTracked(s: State, j: nat, result: Option<seq<Message>>)
    requires Tracked(s) && j < |s.jobs|
    ensures Tracked(OnMerge(s, j, result))
  {
    var done := s.(jobs := s.jobs[j := s.jobs[j].(merged := true)]);
    assert Tracked(done) by {
      forall i | 0 <= i < |done.jobs| ensures done.jobs[i].w == s.jobs[i].w {}
    }
    if OnMerge(s, j, result) != done {
      RewriteTracked(done, Merged(s.messages, |s.jobs[j].w.snapshot|, result.value), SeeReplace);
    }
  }

  lemma AppendTracked(s: State, ms: seq<Message>)
    requires Tracked(s)
    ensures Tracked(OnAppend(s, ms))
  {
    forall w | TracksUnlessReplaced(s.messages, w) ensures TracksUnlessReplaced(s.messages + ms, SeesAppend(ms)(w)) {
      if !w.replaced { AppendTracks(s.messages, w, ms); }
    }
    RewriteTracked(s, s.messages + ms, SeesAppend(ms));
  }

  lemma CapTracked(s: State, limit: nat)
    requires Tracked(s)
    ensures Tracked(OnCap(s, limit))
  {
    var capped := Capped(s.messages, limit);
    CapShrinks(s.messages, limit);
    var n: nat := |s.messages| - |capped|;
    forall w | TracksUnlessReplaced(s.messages, w) ensures TracksUnlessReplaced(capped, SeesCap(n)(w)) {
      CapTracksUnlessReplaced(s.messages, w, limit, n);
    }
    RewriteTracked(s, capped, SeesCap(n));
  }

  lemma CapTracksUnlessReplaced(messages: seq<Message>, w: Watch, limit: nat, n: nat)
    requires TracksUnlessReplaced(messages, w) && n == |messages| - |Capped(messages, limit)|
    ensures TracksUnlessReplaced(Capped(messages, limit), SeeCap(w, n))
  {
    if !w.replaced { CapTracks(messages, w, limit); }
  }

  lemma CheckTracked(s: State, threshold: nat)
    requires Tracked(s) && Enabled(s, Check(threshold))
    ensures Tracked(Next(s, Check(threshold)))
  {
    if Due(s.messages, threshold) {
      assert s.messages + [] == s.messages;
      assert s.messages == [s.messages[0]] + s.messages[1..];
      assert Tracks(s.messages, Watch(s.messages, [], 0, false));
    }
  }

  lemma StepTracked(s: State, a: Action)
    requires Tracked(s) && Enabled(s, a)
    ensures Tracked(Next(s, a))
  {
    match a {
      case Append(ms) => AppendTracked(s, ms);
      case Cap(limit) => CapTracked(s, limit);
      case Replace(ms) => RewriteTracked(s, ms, SeeReplace);
      case Check(threshold) => CheckTracked(s, threshold);
      case Merge(j, result) => MergeTracked(s, j, result);
      case _ =>
    }
  }

  /**
   How a compaction gets going: a check takes a snapshot exactly when one is due, the claim keeps it exactly if no
   compaction is in flight, spawning hands it over, and nothing that others do in between takes it away.
   */
  lemma LoopMoves(s: State, a: Action)
    requires Enabled(s, a)
    ensures var t := Next(s, a);
            && (a.Check? ==> t.loop == if Due(s.messages, a.threshold) then Holding(Watch(s.messages, [], 0, false)) else Idle)
            && (a.Claim? ==> if s.compacting then t.loop == Idle && t.compacting else t.loop == Claimed(s.loop.w) && t.compacting)
            && (a.Spawn? ==> t.loop == Idle && t.jobs == s.jobs + [Job(s.loop.w, false)])
            && (!a.Check? && !a.Claim? && !a.Spawn? ==>
                  && (t.loop.Holding? <==> s.loop.Holding?) && (t.loop.Claimed? <==> s.loop.Claimed?)
                  && (s.loop != Idle ==> t.loop.w.snapshot == s.loop.w.snapshot))
            && (!a.Spawn? && !a.Finish? ==> |t.jobs| == |s.jobs|)
  {}

  lemma StepOneInFlight(s: State, a: Action)
    requires OneInFlight(s) && Enabled(s, a)
    ensures OneInFlight(Next(s, a))
  {}

  // ----- every run -----

  ghost predicate Reaches(history: seq<Message>, acts: seq<Action>, s: State)
    decreases |acts|
  {
    if acts == [] then s == State(history, false, Idle, [])
    else exists before {:trigger Reaches(history, acts[..|acts| - 1], before)} ::
           Reaches(history, acts[..|acts| - 1], before) && Enabled(before, acts[|acts| - 1]) && s == Next(before, acts[|acts| - 1])
  }

  lemma {:induction false} RunInv(history: seq<Message>, acts: seq<Action>, s: State)
    requires Reaches(history, acts, s)
    ensures OneInFlight(s) && Tracked(s)
    decreases |acts|
  {
    if acts != [] {
      var front, last := acts[..|acts| - 1], acts[|acts| - 1];
      var before :| Reaches(history, front, before) && Enabled(before, last) && s == Next(before, last);
      RunInv(history, front, before);
      StepOneInFlight(before, last);
      StepTracked(before, last);
    }
  }

  lemma {:induction false} AtMostOneInFlight(history: seq<Message>, acts: seq<Action>, s: State)
    requires Reaches(history, acts, s)
    ensures |s.jobs| <= 1 && (s.loop.Claimed? ==> s.jobs == []) && (s.compacting <==> s.jobs != [] || s.loop.Claimed?)
  {
    RunInv(history, acts, s);
  }

  /**
   What a merge does, in every run without a replacement in between: the summary is followed by what was
   appended after the snapshot, short of its first messages, one for each the cap has dropped meanwhile; and if
   the cap dropped more than was appended, nothing happens.
   */
  lemma MergeLaw(history: seq<Message>, acts: seq<Action>, s: State, j: nat, compacted: seq<Message>)
    requires Reaches(history, acts, s) && j < |s.jobs| && !s.jobs[j].merged && !s.jobs[j].w.replaced && compacted != []
    ensures var w := s.jobs[j].w;
            Next(s, Merge(j, Some(compacted))).messages ==
            if w.dropped <= |w.since| then compacted + w.since[w.dropped..] else s.messages
  {
    RunInv(history, acts, s);
    assert TracksUnlessReplaced(s.messages, s.jobs[j].w);
    TailAfterSnapshot(s.messages, s.jobs[j].w);
  }

  /** What stands behind as many messages as the snapshot had. */
  lemma TailAfterSnapshot(messages: seq<Message>, w: Watch)
    requires Tracks(messages, w)
    ensures |messages| == |w.snapshot| + |w.since| - w.dropped
    ensures w.dropped <= |w.since| ==> messages[|w.snapshot|..] == w.since[w.dropped..]
  {
    var all, n := w.snapshot + w.since, |w.snapshot|;
    if w.dropped <= |w.since| {
      assert messages[n..] == all[w.dropped + n..];
      assert all[w.dropped + n..] == w.since[w.dropped..];
    }
  }

  /**
   So a merge keeps every message that was appended while the compaction ran if and only if the cap dropped none
   in the meantime; the length test only notices when it dropped more than were appended.
   */
  lemma MergeKeepsAllIff(history: seq<Message>, acts: seq<Action>, s: State, j: nat, compacted: seq<Message>)
    requires Reaches(history, acts, s) && j < |s.jobs| && !s.jobs[j].merged && !s.jobs[j].w.replaced && compacted != []
    requires |s.jobs[j].w.snapshot| <= |s.messages|
    ensures Next(s, Merge(j, Some(compacted))).messages == compacted + s.jobs[j].w.since <==> s.jobs[j].w.dropped == 0
  {
    MergeLaw(history, acts, s, j, compacted);
    RunInv(history, acts, s);
    var w := s.jobs[j].w;
    assert TracksUnlessReplaced(s.messages, w);
    assert |s.messages| == |w.snapshot| + |w.since| - w.dropped;
    if w.dropped == 0 { assert w.since[0..] == w.since; }
    assert |compacted + w.since| != |compacted + w.since[w.dropped..]| || w.dropped == 0;
  }

  /**
   In every run without a replacement in between, a merge leaves the history as it is if and only if there is no
   summary or an empty one, the cap dropped more than was appended, or the summary is what it would replace.
   */
  lemma MergeChangesNothingIff(history: seq<Message>, acts: seq<Action>, s: State, j: nat, result: Option<seq<Message>>)
    requires Reaches(history, acts, s) && Enabled(s, Merge(j, result)) && !s.jobs[j].w.replaced
    ensures var w := s.jobs[j].w;
            Next(s, Merge(j, result)).messages == s.messages <==>
            || result == None || result.value == [] || w.dropped > |w.since|
            || result.value == s.messages[..MinNat(|w.snapshot|, |s.messages|)]
  {
    var w := s.jobs[j].w;
    if result.Some? && result.value != [] {
      var n := |w.snapshot|;
      RunInv(history, acts, s);
      assert TracksUnlessReplaced(s.messages, w);
      assert |s.messages| == n + |w.since| - w.dropped;
      if w.dropped <= |w.since| {
        assert s.messages == s.messages[..n] + s.messages[n..];
        SameTail(result.value, s.messages[..n], s.messages[n..]);
      }
    }
  }

  function MinNat(a: nat, b: nat): nat { if a <= b then a else b }

  lemma SameTail(a: seq<Message>, b: seq<Message>, tail: seq<Message>)
    ensures a + tail == b + tail <==> a == b
  {
    if a + tail == b + tail {
      assert |a| == |b|;
      assert a == (a + tail)[..|a|];
      assert b == (b + tail)[..|b|];
    }
  }

  // ----- which configurations can lose messages -----

  /** The cap of the current turn has been enforced, and the check for compaction has not been made yet. */
  predicate CapDone(acts: seq<Action>) {
    acts != [] && (acts[|acts| - 1].Cap? || (!acts[|acts| - 1].Check? && CapDone(acts[..|acts| - 1])))
  }

  /**
   The loop acts under this configuration: a positive threshold is checked once a turn, after the cap has been enforced
   if there is one.
   */
  predicate Configured(acts: seq<Action>, threshold: nat, maxMessages: nat) {
    acts == [] ||
    var front, last := acts[..|acts| - 1], acts[|acts| - 1];
    && Configured(front, threshold, maxMessages)
    && (last.Check? ==> last.threshold == threshold > 0 && (maxMessages > 0 ==> CapDone(front)))
    && (last.Cap? ==> last.maxMessages == maxMessages > 0 && !CapDone(front))
  }

  ghost predicate Runs(history: seq<Message>, threshold: nat, maxMessages: nat, acts: seq<Action>, s: State) {
    Reaches(history, acts, s) && Configured(acts, threshold, maxMessages)
  }

  lemma Step(history: seq<Message>, t: nat, m: nat, acts: seq<Action>, s: State, a: Action) returns (acts': seq<Action>, s': State)
    requires Runs(history, t, m, acts, s) && Enabled(s, a)
    requires a.Check? ==> a.threshold == t > 0 && (m > 0 ==> CapDone(acts))
    requires a.Cap? ==> a.maxMessages == m > 0 && !CapDone(acts)
    ensures s' == Next(s, a) && Runs(history, t, m, acts', s') && acts' == acts + [a]
    ensures CapDone(acts') <==> a.Cap? || (!a.Check? && CapDone(acts))
  {
    acts', s' := acts + [a], Next(s, a);
    assert acts'[..|acts|] == acts;
  }

  /** A due history at the check becomes the snapshot of a running compaction. */
  lemma CompactionStarts(history: seq<Message>, t: nat, m: nat, acts0: seq<Action>, s0: State) returns (acts: seq<Action>, s: State)
    requires Runs(history, t, m, acts0, s0) && s0.loop == Idle && s0.jobs == [] && !s0.compacting
    requires t > 0 && Due(s0.messages, t) && (m > 0 ==> CapDone(acts0))
    ensures Runs(history, t, m, acts, s) && acts0 <= acts && !CapDone(acts)
    ensures s == State(s0.messages, true, Idle, [Job(Watch(s0.messages, [], 0, false), false)])
  {
    acts, s := Step(history, t, m, acts0, s0, Check(t));
    acts, s := Step(history, t, m, acts, s, Claim);
    acts, s := Step(history, t, m, acts, s, Spawn);
  }

  /**
   A run in which two messages appended during a compaction are lost: any due history, under a cap that it just meets,
   is compacted, and the cap fires in the turn after, before the merge.
   */
  lemma CapHidesAppended(history: seq<Message>, threshold: nat, a: Message, b: Message, compacted: seq<Message>)
    returns (acts: seq<Action>, s: State)
    requires threshold > 0 && Due(history, threshold) && compacted != []
    ensures Runs(history, threshold, |history|, acts, s) && Append([a, b]) in acts && s.messages == compacted
  {
    var m := |history|;
    acts, s := [], State(history, false, Idle, []);
    acts, s := Step(history, threshold, m, acts, s, Cap(m));
    acts, s := CompactionStarts(history, threshold, m, acts, s);
    acts, s := Step(history, threshold, m, acts, s, Append([a, b]));
    acts, s := Step(history, threshold, m, acts, s, Cap(m));
    var before, earlier := s, acts;
    var w := before.jobs[0].w;
    assert w.dropped == 2 && w.since == [a, b] && !w.replaced;
    acts, s := Step(history, threshold, m, acts, s, Merge(0, Some(compacted)));
    MergeLaw(history, earlier, before, 0, compacted);
    assert w.since[2..] == [] && compacted + [] == compacted;
  }

  /** Every merge of this run's job that is not overtaken by a replacement or by the length test keeps all that was appended. */
  ghost predicate MergesKeepAll(s: State) {
    forall j, compacted | 0 <= j < |s.jobs| && MergeApplies(s, j, compacted) ::
      Next(s, Merge(j, Some(compacted))).messages == compacted + s.jobs[j].w.since
  }

  predicate MergeApplies(s: State, j: nat, compacted: seq<Message>)
    requires j < |s.jobs|
  {
    !s.jobs[j].merged && !s.jobs[j].w.replaced && compacted != [] && |s.jobs[j].w.snapshot| <= |s.messages|
  }

  /** Without a cap nothing is ever dropped. */
  predicate NothingDropped(s: State) {
    && (s.loop != Idle ==> s.loop.w.dropped == 0)
    && forall j | 0 <= j < |s.jobs| :: s.jobs[j].w.dropped == 0
  }

  lemma RewriteDropsNothing(s: State, messages: seq<Message>, f: Watch -> Watch)
    requires NothingDropped(s) && forall w :: f(w).dropped == w.dropped
    ensures NothingDropped(Rewrite(s, messages, f))
  {}

  lemma MergeDropsNothing(s: State, j: nat, result: Option<seq<Message>>)
    requires NothingDropped(s) && j < |s.jobs|
    ensures NothingDropped(OnMerge(s, j, result))
  {
    var done := s.(jobs := s.jobs[j := s.jobs[j].(merged := true)]);
    assert forall i | 0 <= i < |done.jobs| :: done.jobs[i].w == s.jobs[i].w;
    if OnMerge(s, j, result) != done {
      RewriteDropsNothing(done, Merged(s.messages, |s.jobs[j].w.snapshot|, result.value), SeeReplace);
    }
  }

  lemma StepDropsNothing(s: State, a: Action)
    requires NothingDropped(s) && Enabled(s, a) && !a.Cap?
    ensures NothingDropped(Next(s, a))
  {
    match a {
      case Append(ms) => RewriteDropsNothing(s, s.messages + ms, SeesAppend(ms));
      case Replace(ms) => RewriteDropsNothing(s, ms, SeeReplace);
      case Merge(j, result) => MergeDropsNothing(s, j, result);
      case Finish(j) =>
        var left := s.jobs[..j] + s.jobs[j + 1..];
        assert forall i | 0 <= i < |left| :: left[i] == if i < j then s.jobs[i] else s.jobs[i + 1];
      case _ =>
    }
  }

  lemma {:induction false} UncappedDropsNothing(history: seq<Message>, threshold: nat, acts: seq<Action>, s: State)
    requires Runs(history, threshold, 0, acts, s)
    ensures NothingDropped(s)
    decreases |acts|
  {
    if acts != [] {
      var front, last := acts[..|acts| - 1], acts[|acts| - 1];
      var before :| Reaches(history, front, before) && Enabled(before, last) && s == Next(before, last);
      UncappedDropsNothing(history, threshold, front, before);
      StepDropsNothing(before, last);
    }
  }

  lemma UncappedKeepsAll(history: seq<Message>, threshold: nat, acts: seq<Action>, s: State)
    requires Runs(history, threshold, 0, acts, s)
    ensures MergesKeepAll(s)
  {
    UncappedDropsNothing(history, threshold, acts, s);
    forall j, compacted | 0 <= j < |s.jobs| && MergeApplies(s, j, compacted)
      ensures Next(s, Merge(j, Some(compacted))).messages == compacted + s.jobs[j].w.since
    {
      MergeKeepsAllIff(history, acts, s, j, compacted);
    }
  }

  function Filler(n: nat): seq<Message> { seq(n, _ => User("")) }

  /** Eight messages more, the latest a reply with this many tokens of context: due, whatever was there before. */
  function Large(tokens: nat): seq<Message> { Filler(MIN_MESSAGES - 1) + [Assistant([], StopNormal, tokens)] }

  lemma LargeIsDue(messages: seq<Message>, threshold: nat)
    ensures Due(messages + Large(threshold), threshold)
  {}

  /** From any history, under any cap, a compaction can be made to run. */
  lemma CappedRuns(history: seq<Message>, t: nat, m: nat) returns (acts: seq<Action>, s: State, snapshot: seq<Message>)
    requires t > 0 && m > 0
    ensures Runs(history, t, m, acts, s) && !CapDone(acts) && |snapshot| >= MIN_MESSAGES
    ensures s == State(snapshot, true, Idle, [Job(Watch(snapshot, [], 0, false), false)])
  {
    acts, s := [], State(history, false, Idle, []);
    acts, s := Step(history, t, m, acts, s, Cap(m));
    LargeIsDue(s.messages, t);
    acts, s := Step(history, t, m, acts, s, Append(Large(t)));
    snapshot := s.messages;
    acts, s := CompactionStarts(history, t, m, acts, s);
  }

  /** Under any cap and from any history a run reaches a merge that loses messages. */
  lemma CappedCanLose(history: seq<Message>, t: nat, m: nat) returns (acts: seq<Action>, s: State)
    requires t > 0 && m > 0
    ensures Runs(history, t, m, acts, s) && !MergesKeepAll(s)
  {
    var snapshot;
    acts, s, snapshot := CappedRuns(history, t, m);
    var n, limit := |snapshot|, EffectiveCap(m);
    acts, s := Step(history, t, m, acts, s, Append(Filler(limit)));
    acts, s := Step(history, t, m, acts, s, Cap(m));
    assert |s.messages| == limit && s.jobs[0].w.dropped == n;
    acts, s := Step(history, t, m, acts, s, Append(Filler(n)));
    MergeKeepsAllIff(history, acts, s, 0, snapshot);
    assert MergeApplies(s, 0, snapshot);
  }

  /**
   No merge of any run loses a message that was appended while its compaction ran, if and only if there is no cap on
   the number of messages; which history the run started from and what the threshold is makes no difference.
   */
  lemma NoMergeLosesIff(history: seq<Message>, threshold: nat, maxMessages: nat)
    requires threshold > 0
    ensures (forall acts, s | Runs(history, threshold, maxMessages, acts, s) :: MergesKeepAll(s)) <==> maxMessages == 0
  {
    if maxMessages == 0 {
      forall acts, s | Runs(history, threshold, maxMessages, acts, s) ensures MergesKeepAll(s) {
        UncappedKeepsAll(history, threshold, acts, s);
      }
    } else {
      var acts, s := CappedCanLose(history, threshold, maxMessages);
    }
  }

  // ----- the agent's own steps -----

  class Agent {
    var messages: seq<Message>
    var compacting: bool

    method EnforceMessageCap(maxMessages: nat)
      modifies `messages
      ensures messages == Capped(old(messages), maxMessages)
    {
      var limit := maxMessages;
      if limit < 4 { limit := 4; }
      if |messages| <= limit { return; }
      var trimmed := [messages[0]];
      trimmed := trimmed + messages[|messages| - limit + 1..];
      messages := trimmed;
    }

    /** The snapshot to compact, taken if the latest reply's context is large enough. */
    method Snapshot(threshold: nat) returns (msgs: Option<seq<Message>>)
      ensures msgs == if Due(messages, threshold) then Some(messages) else None
      ensures forall t: nat | IsLatestTokens(messages, t) :: msgs == if t >= threshold && |messages| >= 8 then Some(messages) else None
    {
      forall t: nat | IsLatestTokens(messages, t) ensures t == MostRecentTokens(messages) { MostRecentIsLatest(messages, t); }
      var total := 0;
      var i := |messages| - 1;
      assert messages[..i + 1] == messages;
      while i >= 0
        invariant -1 <= i < |messages|
        invariant total == 0 && MostRecentTokens(messages) == MostRecentTokens(messages[..i + 1])
      {
        if messages[i].Assistant? {
          total := messages[i].inputTokens;
          break;
        }
        assert messages[..i + 1][..i] == messages[..i];
        i := i - 1;
      }
      assert total == MostRecentTokens(messages);
      if total >= threshold && |messages| >= MIN_MESSAGES { return Some(messages); }
      return None;
    }

    method Claim() returns (ok: bool)
      modifies `compacting
      ensures compacting && ok == !old(compacting)
    {
      if compacting { return false; }
      compacting := true;
      return true;
    }

    method MergeCompacted(snapshotLen: nat, compacted: Option<seq<Message>>)
      modifies `messages
      ensures messages == if compacted.Some? then Merged(old(messages), snapshotLen, compacted.value) else old(messages)
    {
      if compacted == None || |compacted.value| == 0 { return; }
      if snapshotLen > |messages| { return; }
      var tail := messages[snapshotLen..];
      if |tail| == 0 {
        messages := compacted.value;
        assert compacted.value + [] == compacted.value;
      } else {
        messages := compacted.value + tail;
      }
    }
  }
}
