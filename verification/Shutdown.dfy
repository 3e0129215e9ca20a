/**
 Shutting an extension host down: any number of Stop callers, the read loop, the
 goroutine that reaps the child, and the child itself. One sync.Once decides who
 closes the `closed` channel; everyone else waits until that is done.
 */
module Shutdown {

  datatype Child = Running | Exited

  datatype Owner = ByCaller(i: nat) | ByReader

  /** sync.Once: whoever comes first runs the function, and others wait until it has returned. */
  datatype Once = Free | Busy(owner: Owner) | Over(owner: Owner)

  /** The read loop and its deferred function. */
  datatype Reader = Reading | Ending | AtOnce | InOnce(closing: bool) | Done

  /** The goroutine that waits for the process and closes `exited`. */
  datatype Waiter = NotStarted | Waiting | Reaped

  datatype Step = Sending | Spawning | Selecting | Killed | AwaitReadDone | Closing | Leaving

  datatype Caller = Calling | Inside(step: Step) | Returned

  /** The last three count how often each channel has been closed; a second time would panic. */
  datatype State = State(child: Child, pipeFull: bool, once: Once, reader: Reader, waiter: Waiter, callers: seq<Caller>,
                         exited: nat, readDone: nat, closed: nat)

  datatype Action =
    | ChildExits
    | PipeFills(full: bool)
    | OfReader
    | OfWaiter
    | OfCaller(i: nat)
    | Kill(i: nat)          // the 200 ms are over

  predicate Finished(s: State) {
    s.reader == Done && s.waiter != Waiting && forall i | 0 <= i < |s.callers| :: s.callers[i] == Returned
  }

  predicate ReaderCan(s: State) {
    match s.reader
    case Reading => true           // at end of file, or on a scanner error at any time
    case Ending => true
    case AtOnce => !s.once.Busy?
    case InOnce(_) => true
    case Done => false
  }

  predicate StepCan(s: State, step: Step) {
    match step
    case Sending => !s.pipeFull || s.child == Exited     // a write to a full pipe blocks until the reader is gone
    case Selecting => s.exited > 0
    case Killed => s.exited > 0
    case AwaitReadDone => s.readDone > 0
    case _ => true
  }

  predicate Enabled(s: State, a: Action) {
    match a
    case ChildExits => s.child == Running
    case PipeFills(_) => true
    case OfReader => ReaderCan(s)
    case OfWaiter => s.waiter == Waiting && s.child == Exited
    case OfCaller(i) =>
      i < |s.callers| &&
      (match s.callers[i]
       case Calling => !s.once.Busy?
       case Inside(step) => StepCan(s, step)
       case Returned => false)
    case Kill(i) => i < |s.callers| && s.callers[i] == Inside(Selecting)
  }

  function NextReader(s: State): State
    requires ReaderCan(s)
  {
    match s.reader
    case Reading => s.(reader := Ending)
    case Ending => s.(reader := AtOnce, readDone := s.readDone + 1)
    case AtOnce => if s.once.Free? then s.(reader := InOnce(true), once := Busy(ByReader)) else s.(reader := Done)
    case InOnce(closing) =>
      if closing then s.(reader := InOnce(false), closed := s.closed + 1)
      else s.(reader := Done, once := Over(ByReader))
  }

  function At(s: State, i: nat, c: Caller): State
    requires i < |s.callers|
  {
    s.(callers := s.callers[i := c])
  }

  function NextStep(s: State, i: nat, step: Step): State
    requires i < |s.callers|
  {
    match step
    case Sending => At(s, i, Inside(Spawning))
    case Spawning => At(s, i, Inside(Selecting)).(waiter := Waiting)
    case Selecting => At(s, i, Inside(AwaitReadDone))
    case Killed => At(s, i, Inside(AwaitReadDone))
    case AwaitReadDone => At(s, i, Inside(Closing))
    case Closing => At(s, i, Inside(Leaving)).(closed := s.closed + 1)
    case Leaving => At(s, i, Returned).(once := Over(ByCaller(i)))
  }

  function Next(s: State, a: Action): State
    requires Enabled(s, a)
  {
    match a
    case ChildExits => s.(child := Exited)
    case PipeFills(full) => s.(pipeFull := full)
    case OfReader => NextReader(s)
    case OfWaiter => s.(waiter := Reaped, exited := s.exited + 1)
    case OfCaller(i) =>
      (match s.callers[i]
       case Calling => if s.once.Free? then At(s, i, Inside(Sending)).(once := Busy(ByCaller(i))) else At(s, i, Returned)
       case Inside(step) => NextStep(s, i, step)
       case Returned => s)
    case Kill(i) => At(s, i, Inside(Killed))
  }

  // ----- what every step keeps -----

  /** The function under the Once is being run by exactly the one who is said to run it. */
  ghost predicate OwnerOk(s: State) {
    && (forall i | 0 <= i < |s.callers| :: s.callers[i].Inside? <==> s.once == Busy(ByCaller(i)))
    && (s.once.Busy? && s.once.owner.ByCaller? ==> s.once.owner.i < |s.callers|)
    && (s.once.Over? && s.once.owner.ByCaller? ==> s.once.owner.i < |s.callers|)
    && (s.reader.InOnce? <==> s.once == Busy(ByReader))
    && (s.reader == Done ==> s.once.Over?)
    && (s.once == Over(ByReader) ==> s.reader == Done)
    && (forall i | 0 <= i < |s.callers| && s.callers[i] == Returned :: s.once.Over?)
  }

  /** What the caller inside the Once has got through. */
  function Progress(s: State): int {
    match s.once
    case Busy(ByCaller(i)) => if i < |s.callers| && s.callers[i].Inside? then Rank(s.callers[i].step) else 0
    case Over(ByCaller(_)) => 8
    case _ => 0
  }

  function Rank(step: Step): nat {
    match step
    case Sending => 1 case Spawning => 2 case Selecting => 3 case Killed => 4
    case AwaitReadDone => 5 case Closing => 6 case Leaving => 7
  }

  ghost predicate ChannelsOk(s: State) {
    && s.readDone == (if s.reader == Reading || s.reader == Ending then 0 else 1)
    && s.exited == (if s.waiter == Reaped then 1 else 0)
    && s.closed == (if s.once.Over? || Progress(s) == 7 || s.reader == InOnce(false) then 1 else 0)
    && (s.waiter == NotStarted <==> Progress(s) <= 2)
    && (Progress(s) >= 5 ==> s.exited == 1)
    && (Progress(s) >= 6 ==> s.readDone == 1)
    && (s.exited == 1 ==> s.child == Exited)
  }

  ghost predicate Inv(s: State) { OwnerOk(s) && ChannelsOk(s) }

  lemma ReaderKeeps(s: State)
    requires Inv(s) && Enabled(s, OfReader)
    ensures Inv(Next(s, OfReader))
  {}

  lemma CallerKeepsOwner(s: State, i: nat)
    requires Inv(s) && Enabled(s, OfCaller(i))
    ensures OwnerOk(Next(s, OfCaller(i)))
  {}

  lemma CallerKeepsChannels(s: State, i: nat)
    requires Inv(s) && Enabled(s, OfCaller(i))
    ensures ChannelsOk(Next(s, OfCaller(i)))
  {
    match s.callers[i] {
      case Calling =>
      case Inside(step) => assert s.once == Busy(ByCaller(i)) && Progress(s) == Rank(step);
      case Returned =>
    }
  }

  lemma KillKeeps(s: State, i: nat)
    requires Inv(s) && Enabled(s, Kill(i))
    ensures Inv(Next(s, Kill(i)))
  {
    assert s.once == Busy(ByCaller(i)) && Progress(s) == 3;
  }

  lemma StepKeeps(s: State, a: Action)
    requires Inv(s) && Enabled(s, a)
    ensures Inv(Next(s, a))
    ensures |Next(s, a).callers| == |s.callers|
  {
    match a {
      case OfReader => ReaderKeeps(s);
      case OfCaller(i) =>
        CallerKeepsOwner(s, i);
        CallerKeepsChannels(s, i);
      case Kill(i) => KillKeeps(s, i);
      case _ =>
    }
  }

  // ----- every run -----

  ghost predicate Initial(s: State, n: nat) {
    s == State(Running, s.pipeFull, Free, Reading, NotStarted, seq(n, i => Calling), 0, 0, 0)
  }

  ghost predicate Run(s: State, acts: seq<Action>, t: State)
    decreases |acts|
  {
    if acts == [] then t == s
    else exists before {:trigger Run(s, acts[..|acts| - 1], before)} ::
           Run(s, acts[..|acts| - 1], before) && Enabled(before, acts[|acts| - 1]) && t == Next(before, acts[|acts| - 1])
  }

  lemma LastStep(s: State, acts: seq<Action>, t: State) returns (before: State)
    requires Run(s, acts, t) && acts != []
    ensures Run(s, acts[..|acts| - 1], before) && Enabled(before, acts[|acts| - 1]) && t == Next(before, acts[|acts| - 1])
  {
    before :| Run(s, acts[..|acts| - 1], before) && Enabled(before, acts[|acts| - 1]) && t == Next(before, acts[|acts| - 1]);
  }

  lemma {:induction false} RunInv(s: State, acts: seq<Action>, t: State)
    requires Inv(s) && Run(s, acts, t)
    ensures Inv(t) && |t.callers| == |s.callers|
    decreases |acts|
  {
    if acts != [] {
      var before := LastStep(s, acts, t);
      RunInv(s, acts[..|acts| - 1], before);
      StepKeeps(before, acts[|acts| - 1]);
    }
  }

  lemma InitialInv(s: State, n: nat)
    requires Initial(s, n)
    ensures Inv(s)
  {}

  /** In every interleaving each channel is closed at most once, and both of them have been when everyone is finished. */
  lemma ClosedExactlyOnce(s: State, n: nat, acts: seq<Action>, t: State)
    requires Initial(s, n) && Run(s, acts, t)
    ensures t.exited <= 1 && t.readDone <= 1 && t.closed <= 1
    ensures Finished(t) ==> t.readDone == 1 && t.closed == 1
    ensures (exists i :: 0 <= i < |t.callers| && t.callers[i] == Returned) ==> t.closed == 1
  {
    InitialInv(s, n);
    RunInv(s, acts, t);
  }

  /** A Stop that did the work returns only after the child was reaped and the read loop has signalled its end. */
  lemma StopWaitsForChildAndReader(s: State, n: nat, acts: seq<Action>, t: State)
    requires Initial(s, n) && Run(s, acts, t) && t.once.Over?
    ensures t.once.owner.ByCaller? ==> t.child == Exited && t.waiter == Reaped && t.readDone == 1
    ensures t.once.owner == ByReader ==> t.waiter == NotStarted && t.readDone == 1
  {
    InitialInv(s, n);
    RunInv(s, acts, t);
    assert ChannelsOk(t);
  }

  lemma Extend(s: State, acts: seq<Action>, t: State, a: Action) returns (acts': seq<Action>, u: State)
    requires Run(s, acts, t) && Enabled(t, a)
    ensures u == Next(t, a) && Run(s, acts', u)
  {
    acts', u := acts + [a], Next(t, a);
    assert acts'[..|acts|] == acts;
  }

  /** The read loop can end first, on a scanner error say: the host is closed while the child goes on running, unreaped. */
  lemma ReaderClosesAlone(s: State, n: nat) returns (acts: seq<Action>, t: State)
    requires Initial(s, n)
    ensures Run(s, acts, t) && t.once == Over(ByReader) && t.reader == Done && t.closed == 1
    ensures t.child == Running && t.waiter == NotStarted
  {
    acts, t := [], s;
    acts, t := Extend(s, acts, t, OfReader);
    acts, t := Extend(s, acts, t, OfReader);
    acts, t := Extend(s, acts, t, OfReader);
    acts, t := Extend(s, acts, t, OfReader);
    acts, t := Extend(s, acts, t, OfReader);
  }

  /** The child has exited, and the pipe is full, exactly if the run says so. */
  lemma {:induction false} ChildTells(s: State, acts: seq<Action>, t: State)
    requires Run(s, acts, t) && s.child == Running
    ensures t.child == Exited <==> ChildExits in acts
    ensures t.pipeFull <==> PipeAfter(s.pipeFull, acts)
    decreases |acts|
  {
    if acts != [] {
      var before := LastStep(s, acts, t);
      ChildTells(s, acts[..|acts| - 1], before);
      StepTells(before, acts[|acts| - 1]);
      assert acts == acts[..|acts| - 1] + [acts[|acts| - 1]];
    }
  }

  lemma StepTells(s: State, a: Action)
    requires Enabled(s, a)
    ensures Next(s, a).child == (if a.ChildExits? then Exited else s.child)
    ensures Next(s, a).pipeFull == (if a.PipeFills? then a.full else s.pipeFull)
  {}

  predicate PipeAfter(full: bool, acts: seq<Action>) {
    if acts == [] then full
    else if acts[|acts| - 1].PipeFills? then acts[|acts| - 1].full
    else PipeAfter(full, acts[..|acts| - 1])
  }

  /** What the caller that does the work waits for, step by step: the pipe, the reaping, the read loop. */
  lemma WorkerWaitsFor(s: State, i: nat, step: Step)
    requires i < |s.callers| && s.callers[i] == Inside(step)
    ensures Enabled(s, OfCaller(i)) <==>
            && (step == Sending ==> !s.pipeFull || s.child == Exited)
            && (step == Selecting || step == Killed ==> s.exited > 0)
            && (step == AwaitReadDone ==> s.readDone > 0)
    ensures Enabled(s, Kill(i)) <==> step == Selecting
  {}

  /** The other callers return one after the other. */
  lemma {:induction false} OthersReturn(s: State, acts0: seq<Action>, t0: State, i: nat) returns (acts: seq<Action>, t: State)
    requires Run(s, acts0, t0) && t0.once.Over? && i <= |t0.callers|
    requires forall j | 0 <= j < |t0.callers| :: t0.callers[j] == Returned || (t0.callers[j] == Calling && i <= j)
    ensures Run(s, acts, t) && t == t0.(callers := t.callers) && |t.callers| == |t0.callers|
    ensures forall j | 0 <= j < |t.callers| :: t.callers[j] == Returned
    decreases |t0.callers| - i
  {
    acts, t := acts0, t0;
    if i < |t0.callers| {
      if t0.callers[i] == Calling { acts, t := Extend(s, acts, t, OfCaller(i)); }
      acts, t := OthersReturn(s, acts, t, i + 1);
    }
  }

  /** Up to the reaping: the child ignores the request to end and is killed. */
  lemma KillRun(s: State, n: nat) returns (acts: seq<Action>, t: State)
    requires Initial(s, n) && n > 0
    ensures Run(s, acts, t) && t == State(Exited, false, Busy(ByCaller(0)), Reading, Reaped, t.callers, 1, 0, 0)
    ensures |t.callers| == n && t.callers[0] == Inside(Killed) && forall i | 0 < i < n :: t.callers[i] == Calling
  {
    acts, t := [], s;
    acts, t := Extend(s, acts, t, PipeFills(false));
    acts, t := Extend(s, acts, t, OfCaller(0));
    acts, t := Extend(s, acts, t, OfCaller(0));
    acts, t := Extend(s, acts, t, OfCaller(0));
    acts, t := Extend(s, acts, t, Kill(0));
    acts, t := Extend(s, acts, t, ChildExits);
    acts, t := Extend(s, acts, t, OfWaiter);
  }

  /** For any number of callers: one does all of it, the child that ignored it is killed and reaped, and all return. */
  lemma StopCompletes(s: State, n: nat) returns (acts: seq<Action>, t: State)
    requires Initial(s, n) && n > 0
    ensures Run(s, acts, t) && Finished(t) && t.once == Over(ByCaller(0))
    ensures t.child == Exited && t.waiter == Reaped && t.exited == 1 && t.readDone == 1 && t.closed == 1
  {
    acts, t := KillRun(s, n);
    acts, t := ReaderRun(s, acts, t);
    acts, t := Extend(s, acts, t, OfCaller(0));
    acts, t := Extend(s, acts, t, OfCaller(0));
    acts, t := Extend(s, acts, t, OfCaller(0));
    acts, t := Extend(s, acts, t, OfReader);
    acts, t := OthersReturn(s, acts, t, 1);
  }

  /** The read loop sees the end of the pipe and signals. */
  lemma ReaderRun(s: State, acts0: seq<Action>, t0: State) returns (acts: seq<Action>, t: State)
    requires Run(s, acts0, t0) && t0.callers != [] && t0.callers[0] == Inside(Killed) && t0.exited > 0 && t0.reader == Reading
    ensures Run(s, acts, t) && t == t0.(callers := t0.callers[0 := Inside(AwaitReadDone)], reader := AtOnce, readDone := t0.readDone + 1)
  {
    acts, t := Extend(s, acts0, t0, OfCaller(0));
    acts, t := Extend(s, acts, t, OfReader);
    acts, t := Extend(s, acts, t, OfReader);
  }

  // ----- nobody waits for ever -----

  /** Once the child has exited, some thread can take a step until all have finished. */
  lemma SomeThreadCanStep(s: State, n: nat, acts: seq<Action>, t: State) returns (a: Action)
    requires Initial(s, n) && Run(s, acts, t) && t.child == Exited && !Finished(t)
    ensures Enabled(t, a) && (a.OfReader? || a.OfWaiter? || a.OfCaller?)
  {
    InitialInv(s, n);
    RunInv(s, acts, t);
    if ReaderCan(t) { return OfReader; }
    if t.waiter == Waiting { return OfWaiter; }
    if t.once.Busy? {
      // the read loop is past its signal, so the caller inside waits for nothing
      assert t.once.owner.ByCaller?;
      return OfCaller(t.once.owner.i);
    }
    var i :| 0 <= i < |t.callers| && t.callers[i] != Returned;
    return OfCaller(i);
  }

  function ReaderLeft(r: Reader): nat {
    match r
    case Reading => 5 case Ending => 4 case AtOnce => 3 case InOnce(closing) => if closing then 2 else 1 case Done => 0
  }

  function CallerLeft(c: Caller): nat {
    match c
    case Calling => 9
    case Inside(step) => 8 - Rank(step) + 1
    case Returned => 0
  }

  function CallersLeft(cs: seq<Caller>): nat {
    if cs == [] then 0 else CallersLeft(cs[..|cs| - 1]) + CallerLeft(cs[|cs| - 1])
  }

  /** An upper bound on the steps the threads can still take; the reaping goroutine adds its own step when it starts. */
  function StepsLeft(s: State): nat {
    ReaderLeft(s.reader) + CallersLeft(s.callers)
    + match s.waiter case NotStarted => 2 case Waiting => 1 case Reaped => 0
  }

  lemma {:induction false} OneCallerLess(cs: seq<Caller>, i: nat, c: Caller)
    requires i < |cs| && CallerLeft(c) < CallerLeft(cs[i])
    ensures CallersLeft(cs[i := c]) < CallersLeft(cs)
  {
    var front := cs[..|cs| - 1];
    if i < |front| {
      OneCallerLess(front, i, c);
      assert cs[i := c][..|cs| - 1] == front[i := c];
    } else {
      assert cs[i := c][..|cs| - 1] == front;
    }
  }

  lemma CallerStepUsesUp(s: State, i: nat)
    requires Inv(s) && Enabled(s, OfCaller(i))
    ensures StepsLeft(Next(s, OfCaller(i))) < StepsLeft(s)
  {
    OneCallerLess(s.callers, i, Next(s, OfCaller(i)).callers[i]);
    if s.callers[i] == Inside(Spawning) { assert Progress(s) == 2; }
  }

  lemma ThreadStepUsesUp(s: State, a: Action)
    requires Inv(s) && Enabled(s, a) && !a.ChildExits? && !a.PipeFills?
    ensures StepsLeft(Next(s, a)) < StepsLeft(s)
  {
    match a {
      case OfCaller(i) => CallerStepUsesUp(s, i);
      case Kill(i) => OneCallerLess(s.callers, i, Inside(Killed));
      case _ =>
    }
  }

  function ThreadSteps(acts: seq<Action>): set<nat> {
    set i: nat | i < |acts| && !acts[i].ChildExits? && !acts[i].PipeFills?
  }

  lemma StepsSnoc(acts: seq<Action>)
    requires acts != []
    ensures |ThreadSteps(acts)| ==
            |ThreadSteps(acts[..|acts| - 1])| + if acts[|acts| - 1].ChildExits? || acts[|acts| - 1].PipeFills? then 0 else 1
  {
    var front, last := ThreadSteps(acts[..|acts| - 1]), acts[|acts| - 1];
    assert ThreadSteps(acts) == if last.ChildExits? || last.PipeFills? then front else front + {|acts| - 1};
  }

  /** However the threads are scheduled, they take at most nine steps per Stop caller and seven more. */
  lemma {:induction false} ShutdownIsBounded(s: State, n: nat, acts: seq<Action>, t: State)
    requires Initial(s, n) && Run(s, acts, t)
    ensures |set i: nat | i < |acts| && !acts[i].ChildExits? && !acts[i].PipeFills?| + StepsLeft(t) <= 9 * n + 7
    decreases |acts|
  {
    assert ThreadSteps(acts) == set i: nat | i < |acts| && !acts[i].ChildExits? && !acts[i].PipeFills?;
    if acts == [] {
      assert ThreadSteps(acts) == {};
      AllCalling(n);
    } else {
      var front, last := acts[..|acts| - 1], acts[|acts| - 1];
      var before := LastStep(s, acts, t);
      ShutdownIsBounded(s, n, front, before);
      StepsSnoc(acts);
      InitialInv(s, n);
      RunInv(s, front, before);
      if !last.ChildExits? && !last.PipeFills? { ThreadStepUsesUp(before, last); }
    }
  }

  lemma {:induction false} AllCalling(n: nat)
    ensures CallersLeft(seq(n, i => Calling)) == 9 * n
  {
    if n > 0 {
      AllCalling(n - 1);
      assert seq(n, i => Calling)[..n - 1] == seq(n - 1, i => Calling);
    }
  }
}
