/**
 The turn loop: stream a reply with retries, run its tools, append the results,
 take in steering messages, and go round again. Providers, tools and whoever
 queues messages answer in any way they like, and the tools of a reply run as
 in `ToolExecutor`; the history cap, compaction and writers from outside are off.
 */
module Turns {
  import opened Prelude
  import opened Conversation
  import opened Repair
  import Executor = ToolExecutor
  import Steering = ToolSteering

  // ----- retrying a stream -----

  const DEFAULT_ATTEMPTS: nat := 3
  const BASE_DELAY: nat := 500

  function MaxRetries(configured: int): (n: nat)
    ensures n > 0 && (configured > 0 ==> n == configured) && (configured <= 0 ==> n == 3)
  {
    if configured > 0 then configured else DEFAULT_ATTEMPTS
  }

  function Pow2(n: nat): nat { if n == 0 then 1 else 2 * Pow2(n - 1) }

  function MinInt(a: int, b: int): int { if a <= b then a else b }

  /** Milliseconds to wait after a failed attempt; a provider's own hint takes precedence. */
  function RetryDelay(attempt: nat, hint: Option<int>, maxDelay: int): int {
    if hint.Some? && hint.value > 0 then MinInt(hint.value, maxDelay)
    else
      var d := BASE_DELAY * Pow2(if attempt <= 20 then attempt else 20);
      if d > maxDelay then maxDelay else d
  }

  lemma {:induction false} Pow2Grows(m: nat, n: nat)
    requires m < n
    ensures Pow2(m) < Pow2(n) && Pow2(m) > 0
    decreases n
  {
    if m < n - 1 { Pow2Grows(m, n - 1); } else { Pow2Positive(m); }
  }

  lemma {:induction false} Pow2Positive(n: nat)
    ensures Pow2(n) > 0
  {
    if n > 0 { Pow2Positive(n - 1); }
  }

  /**
   The delay starts at half a second and doubles with each attempt up to the cap, exactly as long as the cap is within
   reach of the shift limit. A positive hint is taken instead, up to the cap; any other is ignored.
   */
  lemma RetryDelayLaw(attempt: nat, maxDelay: int, hint: int)
    requires maxDelay > 0
    ensures RetryDelay(0, None, maxDelay) == if maxDelay < 500 then maxDelay else 500
    ensures var d := RetryDelay(attempt, None, maxDelay);
            attempt < 20 ==> RetryDelay(attempt + 1, None, maxDelay) == if 2 * d < maxDelay then 2 * d else maxDelay
    ensures hint > 0 ==> RetryDelay(attempt, Some(hint), maxDelay) == if hint < maxDelay then hint else maxDelay
    ensures hint <= 0 ==> RetryDelay(attempt, Some(hint), maxDelay) == RetryDelay(attempt, None, maxDelay)
    ensures 0 < RetryDelay(attempt, None, maxDelay) <= maxDelay
    ensures RetryDelay(attempt, None, maxDelay) == MinInt(BASE_DELAY * Pow2(attempt), maxDelay) <==>
            attempt <= 20 || maxDelay <= BASE_DELAY * Pow2(20)
    ensures RetryDelay(attempt, None, maxDelay) <= RetryDelay(attempt + 1, None, maxDelay)
  {
    Pow2Positive(attempt);
    Pow2Positive(20);
    Pow2Grows(attempt, attempt + 1);
    if attempt > 20 { Pow2Grows(20, attempt); }
  }

  /** What one attempt to stream comes to; an error may carry the provider's Retry-After. */
  datatype Attempt = Final(msg: Message) | Broken(error: string, hint: Option<int>)

  datatype Streamed = Got(msg: Message) | GaveUp(error: string) | ContextError

  const MAX_DELAY := 5000

  function MaxDelay(configured: int): (d: int)
    ensures d > 0 && (configured > 0 ==> d == configured) && (configured <= 0 ==> d == 5000)
  {
    if configured > 0 then configured else MAX_DELAY
  }

  /**
   `attempt(k)` is what attempt k comes to, `ended(k)` whether the context has ended when it fails, and
   `interrupted(k)` whether the context ends during the wait after it. The first reply ends the retries; without one
   the last error is returned when the attempts are used up, and the context's own error as soon as it has ended.
   */
  method StreamWithRetry(retries: int, delay: int, attempt: nat -> Attempt, ended: nat -> bool, interrupted: nat -> bool)
    returns (r: Streamed, attempts: nat, waits: seq<int>)
    ensures 0 < attempts <= MaxRetries(retries)
    ensures forall j: nat | j < attempts - 1 :: attempt(j).Broken? && !ended(j) && !interrupted(j)
    ensures forall j: nat | j < |waits| ::
              attempt(j).Broken? && waits[j] == RetryDelay(j, attempt(j).hint, MaxDelay(delay))
    ensures |waits| == if r == ContextError && !ended(attempts - 1) then attempts else attempts - 1
    ensures r.Got? <==> attempt(attempts - 1).Final?
    ensures r.Got? ==> attempt(attempts - 1) == Final(r.msg)
    ensures r.GaveUp? ==> attempts == MaxRetries(retries) && !ended(attempts - 1) && attempt(attempts - 1).error == r.error
    ensures r.ContextError? ==> ended(attempts - 1) || (attempts < MaxRetries(retries) && interrupted(attempts - 1))
  {
    var maxRetries := MaxRetries(retries);
    waits := [];
    for k := 0 to maxRetries
      invariant forall j: nat | j < k :: attempt(j).Broken? && !ended(j) && !interrupted(j)
      invariant k < maxRetries && |waits| == k
      invariant forall j: nat | j < k :: attempt(j).Broken? && waits[j] == RetryDelay(j, attempt(j).hint, MaxDelay(delay))
    {
      match attempt(k)
      case Final(msg) => return Got(msg), k + 1, waits;
      case Broken(error, hint) =>
        if ended(k) { return ContextError, k + 1, waits; }
        if k >= maxRetries - 1 { return GaveUp(error), k + 1, waits; }
        waits := waits + [RetryDelay(k, hint, MaxDelay(delay))];
        if interrupted(k) { return ContextError, k + 1, waits; }
    }
  }

  // ----- the loop -----

  datatype Config = Config(maxTurns: nat, maxRetries: int, toolConcurrency: int)

  const DEFAULT_CONCURRENCY: nat := 10

  /** Step mode runs the tools one at a time. */
  function Concurrency(c: Config, stepMode: bool): (n: nat)
    ensures n > 0 && (stepMode ==> n == 1)
    ensures !stepMode ==> n == if c.toolConcurrency > 0 then c.toolConcurrency else 10
  {
    if stepMode then 1 else if c.toolConcurrency > 0 then c.toolConcurrency else DEFAULT_CONCURRENCY
  }

  datatype Pc =
    | Top(pending: seq<Message>)
    | Streaming(attempt: nat)
    | Executing(calls: seq<ToolCall>)
    | Wrapping(calls: seq<ToolCall>, steering: seq<Message>)
    | Ended(stopped: bool)

  /**
   `turns` and `attempts` count from the start of the current round of turns; `replies` are positions in the history.
   `handed` and `placed` are history: the steering messages the loop was handed, and those it put into the conversation.
   */
  datatype State = State(messages: seq<Message>, pc: Pc, turns: nat, attempts: nat, replies: set<nat>,
                         handed: seq<Message>, placed: seq<Message>)

  datatype Action =
    | SeeCancel
    | Begin
    | Reply(assistant: Message)
    | Fail
    | StreamCancelled(called: bool)
    | Results(stepMode: bool, run: seq<Executor.Action>, final: Executor.State)
    | Wrap(queued: seq<Message>)
    | FollowUp(follow: seq<Message>, queued: seq<Message>)

  predicate StoppedBy(m: Message) {
    m.Assistant? && (m.stop == StopError || m.stop == StopAborted)
  }

  /** One result per call, in call order. */
  predicate Answers(results: seq<Message>, calls: seq<ToolCall>) {
    |results| == |calls| && forall k | 0 <= k < |calls| :: results[k].ToolResult? && results[k].callId == calls[k].id
  }

  /** A run of executeTools over these calls, up to its return. */
  ghost predicate Executes(c: Config, calls: seq<ToolCall>, stepMode: bool, run: seq<Executor.Action>, final: Executor.State) {
    Executor.Reaches(Executor.Batch(calls, Concurrency(c, stepMode)), run, final) && final.drain.main.Returned?
  }

  /** Whatever the interleaving, running the tools answers the calls. */
  lemma ExecutorAnswers(c: Config, calls: seq<ToolCall>, stepMode: bool, run: seq<Executor.Action>, final: Executor.State)
    requires Executes(c, calls, stepMode, run, final)
    ensures Answers(final.drain.main.results, calls)
  {
    Executor.OneResultPerCall(Executor.Batch(calls, Concurrency(c, stepMode)), run, final);
  }

  ghost predicate Enabled(c: Config, s: State, a: Action) {
    match a
    case SeeCancel => s.pc.Top?
    case Begin => s.pc.Top?
    case Reply(m) => s.pc.Streaming? && m.Assistant?
    case Fail => s.pc.Streaming?
    case StreamCancelled(_) => s.pc.Streaming?
    case Results(stepMode, run, final) => s.pc.Executing? && Executes(c, s.pc.calls, stepMode, run, final)
    case Wrap(_) => s.pc.Wrapping?
    case FollowUp(follow, _) => s.pc == Ended(false) && follow != []
  }

  function OnReply(s: State, m: Message): State {
    s.(messages := s.messages + [m],
       pc := if StoppedBy(m) then Ended(true) else if CallsOf(m) == [] then Wrapping([], []) else Executing(CallsOf(m)),
       attempts := s.attempts + 1, replies := s.replies + {|s.messages|})
  }

  function OnWrap(c: Config, s: State, queued: seq<Message>): State
    requires s.pc.Wrapping?
  {
    var turns := s.turns + 1;
    var pending := if s.pc.steering != [] then s.pc.steering else queued;
    if c.maxTurns > 0 && turns >= c.maxTurns then s.(turns := turns, pc := Ended(true))
    else
      s.(turns := turns,
         pc := if s.pc.calls == [] && pending == [] then Ended(false) else Top(pending),
         handed := if s.pc.steering != [] then s.handed else s.handed + queued)
  }

  function OnResults(s: State, results: seq<Message>, steering: seq<Message>): State
    requires s.pc.Executing?
  {
    s.(messages := s.messages + results, pc := Wrapping(s.pc.calls, steering), handed := s.handed + steering)
  }

  ghost function Next(c: Config, s: State, a: Action): State
    requires Enabled(c, s, a)
  {
    match a
    case SeeCancel => s.(pc := Ended(true))
    case Begin => s.(messages := s.messages + s.pc.pending, pc := Streaming(0), placed := s.placed + s.pc.pending)
    case Reply(m) => OnReply(s, m)
    case Fail =>
      s.(attempts := s.attempts + 1,
         pc := if s.pc.attempt >= MaxRetries(c.maxRetries) - 1 then Ended(true) else Streaming(s.pc.attempt + 1))
    case StreamCancelled(called) => s.(attempts := if called then s.attempts + 1 else s.attempts, pc := Ended(true))
    case Results(_, _, final) => OnResults(s, final.drain.main.results, Steering.Kept(final))
    case Wrap(queued) => OnWrap(c, s, queued)
    case FollowUp(follow, queued) =>
      s.(messages := s.messages + follow, pc := Top(queued), turns := 0, attempts := 0, handed := s.handed + queued)
  }

  // ----- every reply is followed by its results -----

  /** The message at i is directly followed by one result per call it makes, in call order. */
  predicate Answered(ms: seq<Message>, i: nat)
    requires i < |ms|
  {
    var calls := CallsOf(ms[i]);
    i + |calls| < |ms| && Answers(ms[i + 1..i + 1 + |calls|], calls)
  }

  ghost predicate Paired(s: State) {
    forall i | i in s.replies ::
      && i < |s.messages| && s.messages[i].Assistant?
      && (StoppedBy(s.messages[i]) || Answered(s.messages, i)
          || (s.pc.Executing? && i == |s.messages| - 1 && CallsOf(s.messages[i]) == s.pc.calls))
  }

  lemma AnsweredGrows(ms: seq<Message>, more: seq<Message>, i: nat)
    requires i < |ms| && Answered(ms, i)
    ensures Answered(ms + more, i)
  {
    var n := |CallsOf(ms[i])|;
    assert (ms + more)[i] == ms[i] && (ms + more)[i + 1..i + 1 + n] == ms[i + 1..i + 1 + n];
  }

  lemma PairedGrows(s: State, more: seq<Message>, t: State)
    requires Paired(s) && !s.pc.Executing? && t.messages == s.messages + more && t.replies == s.replies
    ensures Paired(t)
  {
    forall i | i in t.replies
      ensures i < |t.messages| && t.messages[i] == s.messages[i] && (StoppedBy(t.messages[i]) || Answered(t.messages, i))
    {
      if !StoppedBy(s.messages[i]) { AnsweredGrows(s.messages, more, i); }
    }
  }

  lemma ReplyPairs(s: State, m: Message)
    requires Paired(s) && s.pc.Streaming? && m.Assistant?
    ensures Paired(OnReply(s, m))
  {
    var t := OnReply(s, m);
    forall i | i in s.replies
      ensures i < |s.messages| && t.messages[i] == s.messages[i] && (StoppedBy(t.messages[i]) || Answered(t.messages, i))
    {
      if !StoppedBy(s.messages[i]) { AnsweredGrows(s.messages, [m], i); }
    }
    assert t.messages[|s.messages|] == m;
    if CallsOf(m) == [] { assert Answers(t.messages[|s.messages| + 1..|s.messages| + 1], []); }
  }

  lemma ResultsPair(s: State, results: seq<Message>, t: State)
    requires Paired(s) && s.pc.Executing? && Answers(results, s.pc.calls)
    requires t.messages == s.messages + results && t.replies == s.replies
    ensures Paired(t)
  {
    forall i | i in t.replies
      ensures i < |t.messages| && t.messages[i] == s.messages[i] && (StoppedBy(t.messages[i]) || Answered(t.messages, i))
    {
      if !StoppedBy(s.messages[i]) {
        if Answered(s.messages, i) {
          AnsweredGrows(s.messages, results, i);
        } else {
          assert t.messages[i + 1..i + 1 + |results|] == results;
        }
      }
    }
  }

  lemma StepPairs(c: Config, s: State, a: Action)
    requires Paired(s) && Enabled(c, s, a)
    ensures Paired(Next(c, s, a))
  {
    match a {
      case Reply(m) => ReplyPairs(s, m);
      case Begin => PairedGrows(s, s.pc.pending, Next(c, s, a));
      case Results(stepMode, run, final) =>
        ExecutorAnswers(c, s.pc.calls, stepMode, run, final);
        ResultsPair(s, final.drain.main.results, Next(c, s, a));
      case FollowUp(follow, _) => PairedGrows(s, follow, Next(c, s, a));
      case _ =>
        assert s.messages + [] == s.messages;
        PairedGrows(s, [], Next(c, s, a));
    }
  }

  // ----- when the loop goes round again -----

  /** The limit on turns is reached with the turn being wrapped up. */
  predicate LimitReached(c: Config, s: State) { c.maxTurns > 0 && s.turns + 1 >= c.maxTurns }

  /**
   One step ends the loop exactly when it sees the cancellation, the last attempt to stream fails, the reply was
   stopped, or, wrapping a turn up, the limit is reached or there were no calls and nothing is pending; only in the
   last case can follow-ups revive it. After a turn with calls, or with messages pending, it goes round again, with
   what the tools brought back if they did, else with what is queued.
   */
  lemma EndsIff(c: Config, s: State, a: Action)
    requires Enabled(c, s, a)
    ensures var t := Next(c, s, a);
            && (t.pc == Ended(true) <==>
                  || a.SeeCancel? || a.StreamCancelled?
                  || (a.Fail? && s.pc.attempt >= MaxRetries(c.maxRetries) - 1)
                  || (a.Reply? && (a.assistant.stop == StopError || a.assistant.stop == StopAborted))
                  || (a.Wrap? && LimitReached(c, s)))
            && (t.pc == Ended(false) <==>
                  a.Wrap? && !LimitReached(c, s) && s.pc.calls == [] && s.pc.steering == [] && a.queued == [])
            && (a.Wrap? && !LimitReached(c, s) && (s.pc.calls != [] || s.pc.steering != [] || a.queued != []) ==>
                  t.pc == Top(if s.pc.steering != [] then s.pc.steering else a.queued))
  {}

  /** The reply that is being wrapped up or that ended the loop made exactly these calls. */
  ghost predicate LastReplied(s: State) {
    && (s.pc.Wrapping? && s.pc.calls == [] ==> EndsTalking(s.messages) && s.pc.steering == [])
    && (s.pc.Executing? ==> s.pc.calls != [])
    && (s.pc == Ended(false) ==> EndsTalking(s.messages))
  }

  /** The last message is a reply that was not stopped and makes no calls. */
  predicate EndsTalking(ms: seq<Message>) {
    ms != [] && ms[|ms| - 1].Assistant? && !StoppedBy(ms[|ms| - 1]) && OnlyProse(ms[|ms| - 1].content)
  }

  predicate OnlyProse(content: seq<Content>) { forall x | x in content :: x.Prose? }

  lemma NoCallsMeansNone(m: Message)
    requires m.Assistant? && CallsOf(m) == []
    ensures OnlyProse(m.content)
  {
    var at := CallsStand(m.content);
  }

  lemma StepLastReplied(c: Config, s: State, a: Action)
    requires LastReplied(s) && Enabled(c, s, a)
    ensures LastReplied(Next(c, s, a))
  {
    if a.Reply? && CallsOf(a.assistant) == [] { NoCallsMeansNone(a.assistant); }
  }

  // ----- the number of stream attempts -----

  /** Attempts so far, against the turns completed. */
  ghost predicate AttemptsOk(c: Config, s: State) {
    var r := MaxRetries(c.maxRetries);
    match s.pc
    case Top(_) => s.attempts <= s.turns * r && (c.maxTurns > 0 ==> s.turns < c.maxTurns)
    case Streaming(a) => a < r && s.attempts <= s.turns * r + a && (c.maxTurns > 0 ==> s.turns < c.maxTurns)
    case Ended(_) => c.maxTurns > 0 ==> s.attempts <= c.maxTurns * r && s.turns <= c.maxTurns
    case _ => s.attempts <= s.turns * r + r && (c.maxTurns > 0 ==> s.turns < c.maxTurns)
  }

  lemma MulGrows(a: nat, b: nat, r: nat)
    requires a < b
    ensures a * r + r <= b * r
  {
    assert (b - a - 1) * r >= 0;
    assert b * r == (b - a - 1) * r + a * r + r;
  }

  lemma StepAttempts(c: Config, s: State, a: Action)
    requires AttemptsOk(c, s) && Enabled(c, s, a)
    ensures AttemptsOk(c, Next(c, s, a))
  {
    var r := MaxRetries(c.maxRetries);
    if c.maxTurns > 0 && !s.pc.Ended? { MulGrows(s.turns, c.maxTurns, r); }
    if a.Wrap? {
      assert (s.turns + 1) * r == s.turns * r + r;
      if s.turns + 1 < c.maxTurns { MulGrows(s.turns + 1, c.maxTurns, r); }
    }
  }

  // ----- every run -----

  ghost predicate Reaches(c: Config, history: seq<Message>, queued: seq<Message>, acts: seq<Action>, s: State)
    decreases |acts|
  {
    if acts == [] then s == State(history, Top(queued), 0, 0, {}, queued, [])
    else exists before {:trigger Reaches(c, history, queued, acts[..|acts| - 1], before)} ::
           && Reaches(c, history, queued, acts[..|acts| - 1], before)
           && Enabled(c, before, acts[|acts| - 1]) && s == Next(c, before, acts[|acts| - 1])
  }

  lemma {:induction false} RunInv(c: Config, history: seq<Message>, queued: seq<Message>, acts: seq<Action>, s: State)
    requires Reaches(c, history, queued, acts, s)
    ensures Paired(s) && AttemptsOk(c, s) && history <= s.messages
    decreases |acts|
  {
    if acts != [] {
      var front, last := acts[..|acts| - 1], acts[|acts| - 1];
      var before :| Reaches(c, history, queued, front, before) && Enabled(c, before, last) && s == Next(c, before, last);
      RunInv(c, history, queued, front, before);
      StepPairs(c, before, last);
      StepAttempts(c, before, last);
    }
  }

  /**
   Whenever the tools are not running, each reply not stopped by an error or abort is directly followed by
   the results of its calls, one for each, in call order; and what was there before is untouched.
   */
  lemma RepliesAreAnswered(c: Config, history: seq<Message>, queued: seq<Message>, acts: seq<Action>, s: State)
    requires Reaches(c, history, queued, acts, s) && !s.pc.Executing?
    ensures history <= s.messages
    ensures forall i | i in s.replies ::
              i < |s.messages| && s.messages[i].Assistant? && (StoppedBy(s.messages[i]) || Answered(s.messages, i))
  {
    RunInv(c, history, queued, acts, s);
  }

  lemma {:induction false} RunLastReplied(c: Config, history: seq<Message>, queued: seq<Message>, acts: seq<Action>, s: State)
    requires Reaches(c, history, queued, acts, s)
    ensures LastReplied(s)
    decreases |acts|
  {
    if acts != [] {
      var front, last := acts[..|acts| - 1], acts[|acts| - 1];
      var before :| Reaches(c, history, queued, front, before) && Enabled(c, before, last) && s == Next(c, before, last);
      RunLastReplied(c, history, queued, front, before);
      StepLastReplied(c, before, last);
    }
  }

  /** A run that ends by itself ends with a reply that makes no calls, every steering message handed to it placed before that. */
  lemma EndsWithTalk(c: Config, history: seq<Message>, queued: seq<Message>, acts: seq<Action>, s: State)
    requires Reaches(c, history, queued, acts, s) && s.pc == Ended(false)
    ensures EndsTalking(s.messages) && s.placed == s.handed
  {
    RunLastReplied(c, history, queued, acts, s);
    RunAccounts(c, history, queued, acts, s);
  }

  /** The attempts to stream, successful or not, since the current round of turns began. */
  function AttemptsIn(acts: seq<Action>): nat {
    if acts == [] || acts[|acts| - 1].FollowUp? then 0
    else
      var a := acts[|acts| - 1];
      AttemptsIn(acts[..|acts| - 1]) + if a.Reply? || a.Fail? || (a.StreamCancelled? && a.called) then 1 else 0
  }

  /** The turns wrapped up in the current round. */
  function WrapsIn(acts: seq<Action>): nat {
    if acts == [] || acts[|acts| - 1].FollowUp? then 0
    else WrapsIn(acts[..|acts| - 1]) + if acts[|acts| - 1].Wrap? then 1 else 0
  }

  lemma {:induction false} RunCounts(c: Config, history: seq<Message>, queued: seq<Message>, acts: seq<Action>, s: State)
    requires Reaches(c, history, queued, acts, s)
    ensures s.attempts == AttemptsIn(acts) && s.turns == WrapsIn(acts)
    decreases |acts|
  {
    if acts != [] {
      var front, last := acts[..|acts| - 1], acts[|acts| - 1];
      var before :| Reaches(c, history, queued, front, before) && Enabled(c, before, last) && s == Next(c, before, last);
      RunCounts(c, history, queued, front, before);
    }
  }

  /** One round of turns makes at most MaxTurns times MaxRetries attempts to stream, and at most MaxTurns turns. */
  lemma AttemptsBounded(c: Config, history: seq<Message>, queued: seq<Message>, acts: seq<Action>, s: State)
    requires Reaches(c, history, queued, acts, s) && c.maxTurns > 0
    ensures AttemptsIn(acts) <= c.maxTurns * MaxRetries(c.maxRetries)
    ensures WrapsIn(acts) <= c.maxTurns
  {
    RunInv(c, history, queued, acts, s);
    RunCounts(c, history, queued, acts, s);
    if !s.pc.Ended? { MulGrows(s.turns, c.maxTurns, MaxRetries(c.maxRetries)); }
  }

  // ----- when a repair is needed afterwards -----

  /** Messages put in by anyone but the model make no tool calls. */
  predicate Plain(ms: seq<Message>) {
    forall m | m in ms :: CallsOf(m) == []
  }

  ghost predicate PlainAction(a: Action) {
    match a
    case Results(_, run, _) => forall m | Executor.SteerArrives(m) in run :: CallsOf(m) == []
    case Wrap(queued) => Plain(queued)
    case FollowUp(follow, queued) => Plain(follow) && Plain(queued)
    case _ => true
  }

  ghost predicate OnlyRepliesCall(history: seq<Message>, s: State) {
    && (forall i | |history| <= i < |s.messages| && CallsOf(s.messages[i]) != [] :: i in s.replies)
    && (s.pc.Top? ==> Plain(s.pc.pending))
    && (s.pc.Wrapping? ==> Plain(s.pc.steering))
  }

  lemma {:induction false} RunOnlyRepliesCall(c: Config, history: seq<Message>, queued: seq<Message>, acts: seq<Action>, s: State)
    requires Reaches(c, history, queued, acts, s) && Plain(queued) && forall i | 0 <= i < |acts| :: PlainAction(acts[i])
    ensures history <= s.messages && OnlyRepliesCall(history, s)
    decreases |acts|
  {
    if acts != [] {
      var front, last := acts[..|acts| - 1], acts[|acts| - 1];
      var before :| Reaches(c, history, queued, front, before) && Enabled(c, before, last) && s == Next(c, before, last);
      RunOnlyRepliesCall(c, history, queued, front, before);
      assert PlainAction(last);
      StepOnlyRepliesCall(c, history, before, last);
    }
  }

  lemma StepOnlyRepliesCall(c: Config, history: seq<Message>, s: State, a: Action)
    requires history <= s.messages && OnlyRepliesCall(history, s) && Enabled(c, s, a) && PlainAction(a)
    ensures history <= Next(c, s, a).messages && OnlyRepliesCall(history, Next(c, s, a))
  {
    if a.Results? {
      ExecutorAnswers(c, s.pc.calls, a.stepMode, a.run, a.final);
      forall m | m in Steering.Kept(a.final) ensures CallsOf(m) == [] {
        Steering.KeptArrived(Executor.Batch(s.pc.calls, Concurrency(c, a.stepMode)), a.run, a.final, m);
      }
    }
  }

  lemma ResultCounts(ms: seq<Message>, j: nat, id: string)
    requires j < |ms| && ms[j].ToolResult? && ms[j].callId == id
    ensures id in ResultIds(ms)
  {
    assert ms[j] in ms;
  }

  lemma ResultFor(ms: seq<Message>, i: nat, call: ToolCall) returns (j: nat)
    requires NoOrphans(ms) && i < |ms| && call in CallsOf(ms[i])
    ensures j < |ms| && ms[j].ToolResult? && ms[j].callId == call.id
  {
    assert call.id in ResultIds(ms);
    var m :| m in ms && m.ToolResult? && m.callId == call.id;
    j :| 0 <= j < |ms| && ms[j] == m;
  }

  lemma ResultAfter(ms: seq<Message>, i: nat, call: ToolCall) returns (j: nat)
    requires i < |ms| && Answered(ms, i) && call in CallsOf(ms[i])
    ensures j < |ms| && ms[j].ToolResult? && ms[j].callId == call.id
  {
    var calls := CallsOf(ms[i]);
    var k :| 0 <= k < |calls| && calls[k] == call;
    j := i + 1 + k;
    assert ms[i + 1..i + 1 + |calls|][k] == ms[j];
  }

  /**
   A run over a history without orphans leaves one without orphans, so that the repair changes nothing, unless
   a reply that was stopped by an error or abort had made calls.
   */
  lemma RunNeedsNoRepair(c: Config, history: seq<Message>, queued: seq<Message>, acts: seq<Action>, s: State)
    requires Reaches(c, history, queued, acts, s) && !s.pc.Executing?
    requires Plain(queued) && forall i | 0 <= i < |acts| :: PlainAction(acts[i])
    requires NoOrphans(history)
    requires forall i | i in s.replies && i < |s.messages| && StoppedBy(s.messages[i]) :: CallsOf(s.messages[i]) == []
    ensures Repaired(s.messages) == s.messages
  {
    RunInv(c, history, queued, acts, s);
    RunOnlyRepliesCall(c, history, queued, acts, s);
    forall i, call | 0 <= i < |s.messages| && call in CallsOf(s.messages[i]) ensures call.id in ResultIds(s.messages) {
      if i < |history| {
        assert s.messages[i] == history[i];
        var j := ResultFor(history, i, call);
        ResultCounts(s.messages, j, call.id);
      } else {
        var j := ResultAfter(s.messages, i, call);
        ResultCounts(s.messages, j, call.id);
      }
    }
    UnchangedIffNoOrphans(s.messages);
  }

  // ----- what becomes of the steering messages the loop was handed -----

  function Held(pc: Pc): seq<Message> {
    match pc
    case Top(pending) => pending
    case Wrapping(_, steering) => steering
    case _ => []
  }

  /** Handed over, in order: what was placed, then what is still held. */
  predicate Accounted(s: State) { s.handed == s.placed + Held(s.pc) }

  predicate NeverCancelled(acts: seq<Action>) { SeeCancel !in acts }

  lemma StepAccounts(c: Config, s: State, a: Action)
    requires Accounted(s) && Enabled(c, s, a)
    ensures Next(c, s, a).pc == Ended(true) || Accounted(Next(c, s, a))
    ensures c.maxTurns == 0 && a != SeeCancel ==> Accounted(Next(c, s, a))
  {}

  lemma {:induction false} RunAccounts(c: Config, history: seq<Message>, queued: seq<Message>, acts: seq<Action>, s: State)
    requires Reaches(c, history, queued, acts, s)
    ensures s.pc == Ended(true) || Accounted(s)
    ensures c.maxTurns == 0 && NeverCancelled(acts) ==> Accounted(s)
    decreases |acts|
  {
    if acts != [] {
      var front, last := acts[..|acts| - 1], acts[|acts| - 1];
      var before :| Reaches(c, history, queued, front, before) && Enabled(c, before, last) && s == Next(c, before, last);
      RunAccounts(c, history, queued, front, before);
      assert last in acts;
      StepAccounts(c, before, last);
    }
  }

  /** While the loop runs it has placed or holds every steering message it was handed, in order. */
  lemma NothingDroppedBeforeTheEnd(c: Config, history: seq<Message>, queued: seq<Message>, acts: seq<Action>, s: State)
    requires Reaches(c, history, queued, acts, s) && s.pc != Ended(true)
    ensures s.handed == s.placed + Held(s.pc)
  {
    RunAccounts(c, history, queued, acts, s);
  }

  ghost predicate Runs(c: Config, acts: seq<Action>, s: State) {
    Reaches(c, [], [User("")], acts, s) && NeverCancelled(acts)
  }

  lemma Extend(c: Config, acts: seq<Action>, s: State, a: Action) returns (acts': seq<Action>, t: State)
    requires Runs(c, acts, s) && Enabled(c, s, a) && a != SeeCancel
    ensures t == Next(c, s, a) && Runs(c, acts', t)
  {
    acts', t := acts + [a], Next(c, s, a);
    assert acts'[..|acts|] == acts;
  }

  /** k turns in which the model only talks and the user steers. */
  lemma {:induction false} TalkFor(c: Config, k: nat) returns (acts: seq<Action>, s: State)
    requires c.maxTurns > 0 ==> k < c.maxTurns
    ensures Runs(c, acts, s) && s.pc == Top([User("")]) && s.turns == k
  {
    if k == 0 {
      acts, s := [], State([], Top([User("")]), 0, 0, {}, [User("")], []);
    } else {
      acts, s := TalkFor(c, k - 1);
      acts, s := Extend(c, acts, s, Begin);
      acts, s := Extend(c, acts, s, Reply(Assistant([], StopNormal, 0)));
      acts, s := Extend(c, acts, s, Wrap([User("")]));
    }
  }

  lemma OneCall(call: ToolCall)
    ensures CallsIn([Call(call)]) == [call]
  {
    assert [Call(call)][..0] == [];
    assert CallsIn([Call(call)]) == CallsIn([]) + [call];
  }

  /** The last turn allowed runs a tool that brings back a steering message. */
  lemma LimitDropsSteering(c: Config) returns (acts: seq<Action>, s: State)
    requires c.maxTurns > 0
    ensures Runs(c, acts, s) && s.pc.Ended? && s.placed != s.handed
  {
    var call := ToolCall("a", "t");
    var m := Assistant([Call(call)], StopTool, 0);
    OneCall(call);
    acts, s := TalkFor(c, c.maxTurns - 1);
    RunAccounts(c, [], [User("")], acts, s);
    acts, s := Extend(c, acts, s, Begin);
    acts, s := Extend(c, acts, s, Reply(m));
    var run, final := Steering.OneCallHandsOn(Executor.Batch([call], Concurrency(c, false)), User(""));
    acts, s := Extend(c, acts, s, Results(false, run, final));
    acts, s := Extend(c, acts, s, Wrap([]));
  }

  /**
   Every steering message handed to the loop is in the conversation at the end of every run that is not cancelled
   between two turns, if and only if the number of turns is not limited: the limit is tested before what the tools
   brought back is looked at.
   */
  lemma NoRunDropsIff(c: Config)
    ensures (forall history, queued, acts, s | Reaches(c, history, queued, acts, s) && NeverCancelled(acts) && s.pc.Ended? ::
               s.placed == s.handed) <==> c.maxTurns == 0
  {
    if c.maxTurns == 0 {
      forall history, queued, acts, s | Reaches(c, history, queued, acts, s) && NeverCancelled(acts) && s.pc.Ended?
        ensures s.placed == s.handed
      {
        RunAccounts(c, history, queued, acts, s);
      }
    } else {
      var acts, s := LimitDropsSteering(c);
      assert Reaches(c, [], [User("")], acts, s);
    }
  }
}
