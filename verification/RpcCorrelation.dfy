/**
 Matching replies to requests over one pipe. Any number of callers, one read
 loop and a peer that may send anything: late, repeated and unknown replies.
 The host and the extension side differ only in how a cancelled call ends.
 */
module RpcCorrelation {
  import opened Prelude

  datatype Side = HostSide | SdkSide

  datatype Msg = Msg(id: nat, body: string)

  datatype Outcome = Got(msg: Msg) | CancelledErr | ClosedErr | SendErr

  /** Where a caller is: it has drawn an id, filed it, written the request, is in the SDK's grace period, or has returned. */
  datatype Phase =
    | Allocated(id: nat)
    | Filed(id: nat)
    | Waiting(id: nat)
    | Grace(id: nat)
    | Done(id: nat, outcome: Outcome)

  datatype Reader = Idle | Delivering(msg: Msg)

  /** History: every reply line read, how many had been read when an id was filed, and which line was matched to it. */
  datatype Log = Log(lines: seq<Msg>, filedAt: map<nat, nat>, matched: map<nat, nat>)

  datatype State = State(
    nextId: nat, callers: map<nat, Phase>,
    pending: map<nat, nat>,             // id -> caller
    chans: map<nat, seq<Msg>>,          // id -> contents of its one-place channel
    reader: Reader, closed: bool, log: Log)

  const INIT := State(0, map[], map[], map[], Idle, false, Log([], map[], map[]))

  datatype Action =
    | Draw(caller: nat)              // nextID.Add(1) at the start of a request
    | DrawOther                      // the counter is shared with stream ids
    | File(caller: nat)
    | Write(caller: nat)
    | WriteFails(caller: nat)
    | Receive(caller: nat)
    | Cancel(caller: nat)
    | SeeClosed(caller: nat)
    | GraceReceive(caller: nat)
    | GraceExpires(caller: nat)
    | ReadLine(msg: Msg)             // whatever the peer sent
    | Deliver
    | Close

  predicate Enabled(side: Side, s: State, a: Action) {
    match a
    case Draw(k) => k !in s.callers
    case DrawOther => true
    case File(k) => k in s.callers && s.callers[k].Allocated?
    case Write(k) => k in s.callers && s.callers[k].Filed?
    case WriteFails(k) => side == HostSide && k in s.callers && s.callers[k].Filed?
    case Receive(k) => k in s.callers && s.callers[k].Waiting? && Chan(s, s.callers[k].id) != []
    case Cancel(k) => k in s.callers && s.callers[k].Waiting?
    case SeeClosed(k) => side == HostSide && s.closed && k in s.callers && s.callers[k].Waiting?
    case GraceReceive(k) => k in s.callers && s.callers[k].Grace? && Chan(s, s.callers[k].id) != []
    case GraceExpires(k) => k in s.callers && s.callers[k].Grace?
    case ReadLine(_) => s.reader == Idle
    case Deliver => s.reader.Delivering? && |Chan(s, s.reader.msg.id)| < 1   // otherwise the read loop would block
    case Close => true
  }

  function Chan(s: State, id: nat): seq<Msg> { if id in s.chans then s.chans[id] else [] }

  function Next(side: Side, s: State, a: Action): State
    requires Enabled(side, s, a)
  {
    match a
    case Draw(k) => DrawId(s, k)
    case DrawOther => s.(nextId := s.nextId + 1)
    case File(k) => FileId(s, k)
    case Write(k) => Move(s, k, Waiting(s.callers[k].id))
    case WriteFails(k) => Return(s, k, SendErr)
    case Receive(k) => Collect(s, k)
    case Cancel(k) =>
      if side == HostSide then Return(s, k, CancelledErr)
      else StartGrace(s, k)
    case SeeClosed(k) => Return(s, k, ClosedErr)
    case GraceReceive(k) => Collect(s, k)
    case GraceExpires(k) => Move(s, k, Done(s.callers[k].id, CancelledErr))
    case ReadLine(m) => TakeLine(s, m)
    case Deliver => PutInChannel(s, s.reader.msg)
    case Close => s.(closed := true)
  }

  function DrawId(s: State, k: nat): State {
    s.(nextId := s.nextId + 1, callers := s.callers[k := Allocated(s.nextId + 1)])
  }

  function Move(s: State, k: nat, p: Phase): State { s.(callers := s.callers[k := p]) }

  function FileId(s: State, k: nat): State
    requires k in s.callers
  {
    var id := s.callers[k].id;
    s.(callers := s.callers[k := Filed(id)], pending := s.pending[id := k], chans := s.chans[id := []],
       log := s.log.(filedAt := s.log.filedAt[id := |s.log.lines|]))
  }

  /** The SDK drops its pending entry and waits a little longer for a reply already on its way. */
  function StartGrace(s: State, k: nat): State
    requires k in s.callers
  {
    s.(callers := s.callers[k := Grace(s.callers[k].id)], pending := s.pending - {s.callers[k].id})
  }

  /** handleMessage: a line whose id is pending is claimed for its caller, any other is ignored. */
  function TakeLine(s: State, m: Msg): State {
    var log := s.log.(lines := s.log.lines + [m]);
    if m.id in s.pending
    then s.(pending := s.pending - {m.id}, reader := Delivering(m), log := log.(matched := log.matched[m.id := |s.log.lines|]))
    else s.(log := log)
  }

  function PutInChannel(s: State, m: Msg): State {
    s.(reader := Idle, chans := s.chans[m.id := Chan(s, m.id) + [m]])
  }

  /** The caller takes its entry out of the pending map and returns. */
  function Return(s: State, k: nat, o: Outcome): State
    requires k in s.callers
  {
    s.(callers := s.callers[k := Done(s.callers[k].id, o)], pending := s.pending - {s.callers[k].id})
  }

  function Collect(s: State, k: nat): State
    requires k in s.callers && Chan(s, s.callers[k].id) != []
  {
    var id := s.callers[k].id;
    s.(callers := s.callers[k := Done(id, Got(Chan(s, id)[0]))], chans := s.chans[id := Chan(s, id)[1..]])
  }

  function Exec(side: Side, acts: seq<Action>): Option<State> {
    if acts == [] then Some(INIT)
    else
      match Exec(side, acts[..|acts| - 1])
      case None => None
      case Some(s) => if Enabled(side, s, acts[|acts| - 1]) then Some(Next(side, s, acts[|acts| - 1])) else None
  }

  // ----- the invariant -----

  /** Ids are handed out once. */
  ghost predicate IdsUnique(s: State) {
    && (forall k | k in s.callers :: 1 <= s.callers[k].id <= s.nextId)
    && (forall j, k | j in s.callers && k in s.callers && j != k :: s.callers[j].id != s.callers[k].id)
  }

  /** A pending entry belongs to a caller that is still going to wait for it. */
  ghost predicate PendingIsLive(s: State) {
    forall id | id in s.pending ::
      && s.pending[id] in s.callers
      && (s.callers[s.pending[id]] == Filed(id) || s.callers[s.pending[id]] == Waiting(id))
  }

  /** Only filed ids have history; an id that has not been filed is in no map. */
  ghost predicate Known(s: State) {
    && (forall k | k in s.callers && s.callers[k].Allocated? :: s.callers[k].id !in s.log.filedAt)
    && (forall id | id in s.log.filedAt :: id <= s.nextId && s.log.filedAt[id] <= |s.log.lines|)
    && (forall id | id in s.pending || id in s.log.matched || id in s.chans :: id in s.log.filedAt)
    && (s.reader.Delivering? ==> s.reader.msg.id in s.log.matched)
  }

  /** Each filed id is matched to at most one line: the first one with that id since it was filed. */
  ghost predicate MatchedFirst(s: State) {
    && (forall id | id in s.log.matched :: id in s.log.filedAt && FirstSince(s.log.lines, s.log.filedAt[id], id, s.log.matched[id]))
    && (forall id | id in s.pending && id in s.log.filedAt :: id !in s.log.matched && NoneSince(s.log.lines, s.log.filedAt[id], id))
  }

  ghost predicate NoneSince(lines: seq<Msg>, from: nat, id: nat) {
    forall i | from <= i < |lines| :: lines[i].id != id
  }

  ghost predicate FirstSince(lines: seq<Msg>, from: nat, id: nat, at: nat) {
    from <= at < |lines| && lines[at].id == id && forall i | from <= i < at :: lines[i].id != id
  }

  /** A message in the read loop's hand, in a channel or returned is the one matched to its id, and is in one place only. */
  ghost predicate OnePlace(s: State) {
    && (s.reader.Delivering? ==> IsMatched(s, s.reader.msg.id, s.reader.msg) && Chan(s, s.reader.msg.id) == [] && !Returned(s, s.reader.msg.id))
    && (forall id | id in s.chans && s.chans[id] != [] :: |s.chans[id]| == 1 && IsMatched(s, id, s.chans[id][0]) && !Returned(s, id))
    && (forall k | k in s.callers && s.callers[k].Done? && s.callers[k].outcome.Got? ::
          IsMatched(s, s.callers[k].id, s.callers[k].outcome.msg))
  }

  ghost predicate IsMatched(s: State, id: nat, m: Msg) {
    id in s.log.matched && s.log.matched[id] < |s.log.lines| && s.log.lines[s.log.matched[id]] == m
  }

  /** Some caller has already returned with a message for this id. */
  ghost predicate Returned(s: State, id: nat) {
    exists k | k in s.callers :: s.callers[k].Done? && s.callers[k].outcome.Got? && s.callers[k].id == id
  }

  ghost predicate Inv(s: State) {
    IdsUnique(s) && PendingIsLive(s) && Known(s) && MatchedFirst(s) && OnePlace(s)
  }

  lemma NextKeepsInv(side: Side, s: State, a: Action)
    requires Inv(s) && Enabled(side, s, a)
    ensures Inv(Next(side, s, a))
  {
    if a.ReadLine? || a.Deliver? || a.DrawOther? || a.Close? {
      ReaderKeepsInv(side, s, a);
    } else if a.Draw? || a.File? || a.Write? || a.WriteFails? {
      StartingKeepsInv(side, s, a);
    } else {
      ReturningKeepsInv(side, s, a);
    }
  }

  lemma ReaderKeepsInv(side: Side, s: State, a: Action)
    requires Inv(s) && Enabled(side, s, a)
    requires a.ReadLine? || a.Deliver? || a.DrawOther? || a.Close?
    ensures Inv(Next(side, s, a))
  {
    match a
    case ReadLine(m) => ReadKeepsInv(s, m);
    case Deliver => DeliverKeepsInv(s, s.reader.msg);
    case DrawOther => CounterKeepsInv(s);
    case Close => ClosedKeepsInv(s);
  }

  lemma StartingKeepsInv(side: Side, s: State, a: Action)
    requires Inv(s) && Enabled(side, s, a)
    requires a.Draw? || a.File? || a.Write? || a.WriteFails?
    ensures Inv(Next(side, s, a))
  {
    match a
    case Draw(k) => DrawKeepsInv(s, k);
    case File(k) => FileKeepsInv(s, k);
    case Write(k) => MoveKeepsInv(s, k, Waiting(s.callers[k].id));
    case WriteFails(k) => ReturnKeepsInv(s, k, SendErr);
  }

  lemma ReturningKeepsInv(side: Side, s: State, a: Action)
    requires Inv(s) && Enabled(side, s, a)
    requires a.Receive? || a.GraceReceive? || a.SeeClosed? || a.Cancel? || a.GraceExpires?
    ensures Inv(Next(side, s, a))
  {
    match a
    case Receive(k) => CollectKeepsInv(s, k);
    case GraceReceive(k) => CollectKeepsInv(s, k);
    case SeeClosed(k) => ReturnKeepsInv(s, k, ClosedErr);
    case Cancel(k) => if side == HostSide { ReturnKeepsInv(s, k, CancelledErr); } else { GraceKeepsInv(s, k); }
    case GraceExpires(k) => MoveKeepsInv(s, k, Done(s.callers[k].id, CancelledErr));
  }

  lemma FileKeepsInv(s: State, k: nat)
    requires Inv(s) && k in s.callers && s.callers[k].Allocated?
    ensures Inv(FileId(s, k))
  {
    FileIds(s, k); FileMatched(s, k); FilePlace(s, k);
  }

  lemma GraceKeepsInv(s: State, k: nat)
    requires Inv(s) && k in s.callers && s.callers[k].Waiting?
    ensures Inv(StartGrace(s, k))
  {
    GraceIds(s, k); GraceMatched(s, k); GracePlace(s, k);
  }

  lemma ReadKeepsInv(s: State, m: Msg)
    requires Inv(s) && s.reader == Idle
    ensures Inv(TakeLine(s, m))
  {
    ReadIds(s, m); ReadMatched(s, m); ReadPlace(s, m);
  }

  lemma DeliverKeepsInv(s: State, m: Msg)
    requires Inv(s) && s.reader == Delivering(m)
    ensures Inv(PutInChannel(s, m))
  {
    DeliverIds(s, m); DeliverMatched(s, m); DeliverPlace(s, m);
  }

  lemma CounterKeepsInv(s: State)
    requires Inv(s)
    ensures Inv(s.(nextId := s.nextId + 1))
  {
    CounterKeepsIds(s);
    CounterKeepsPlaces(s);
  }

  lemma CounterKeepsIds(s: State)
    requires IdsUnique(s) && Known(s)
    ensures IdsUnique(s.(nextId := s.nextId + 1)) && Known(s.(nextId := s.nextId + 1))
  {}

  lemma CounterKeepsPlaces(s: State)
    requires PendingIsLive(s) && MatchedFirst(s) && OnePlace(s)
    ensures PendingIsLive(s.(nextId := s.nextId + 1)) && MatchedFirst(s.(nextId := s.nextId + 1)) && OnePlace(s.(nextId := s.nextId + 1))
  {}

  lemma ClosedKeepsInv(s: State)
    requires Inv(s)
    ensures Inv(s.(closed := true))
  {}

  lemma FileIds(s: State, k: nat)
    requires Inv(s) && k in s.callers && s.callers[k].Allocated?
    ensures IdsUnique(FileId(s, k)) && PendingIsLive(FileId(s, k))
  {}

  lemma FileMatched(s: State, k: nat)
    requires Inv(s) && k in s.callers && s.callers[k].Allocated?
    ensures Known(FileId(s, k)) && MatchedFirst(FileId(s, k))
  {}

  lemma FilePlace(s: State, k: nat)
    requires Inv(s) && k in s.callers && s.callers[k].Allocated?
    ensures OnePlace(FileId(s, k))
  {}

  lemma GraceIds(s: State, k: nat)
    requires Inv(s) && k in s.callers && s.callers[k].Waiting?
    ensures IdsUnique(StartGrace(s, k)) && PendingIsLive(StartGrace(s, k))
  {}

  lemma GraceMatched(s: State, k: nat)
    requires Inv(s) && k in s.callers && s.callers[k].Waiting?
    ensures Known(StartGrace(s, k)) && MatchedFirst(StartGrace(s, k))
  {}

  lemma GracePlace(s: State, k: nat)
    requires Inv(s) && k in s.callers && s.callers[k].Waiting?
    ensures OnePlace(StartGrace(s, k))
  {}

  lemma ReadIds(s: State, m: Msg)
    requires Inv(s) && s.reader == Idle
    ensures IdsUnique(TakeLine(s, m)) && PendingIsLive(TakeLine(s, m))
  {}

  lemma ReadMatched(s: State, m: Msg)
    requires Inv(s) && s.reader == Idle
    ensures Known(TakeLine(s, m)) && MatchedFirst(TakeLine(s, m))
  {
    if m.id in s.pending { ClaimMatched(s, m); } else { IgnoreMatched(s, m); }
  }

  lemma ClaimMatched(s: State, m: Msg)
    requires Inv(s) && s.reader == Idle && m.id in s.pending
    ensures Known(TakeLine(s, m)) && MatchedFirst(TakeLine(s, m))
  {
    ClaimKnown(s, m);
    ClaimFirst(s, m);
  }

  lemma ClaimKnown(s: State, m: Msg)
    requires Inv(s) && s.reader == Idle && m.id in s.pending
    ensures Known(TakeLine(s, m))
  {}

  lemma ClaimFirst(s: State, m: Msg)
    requires Known(s) && MatchedFirst(s) && s.reader == Idle && m.id in s.pending
    ensures MatchedFirst(TakeLine(s, m))
  {}

  lemma IgnoreMatched(s: State, m: Msg)
    requires Inv(s) && s.reader == Idle && m.id !in s.pending
    ensures Known(TakeLine(s, m)) && MatchedFirst(TakeLine(s, m))
  {}

  lemma ReadPlace(s: State, m: Msg)
    requires Inv(s) && s.reader == Idle
    ensures OnePlace(TakeLine(s, m))
  {
    if m.id in s.pending { ClaimPlace(s, m); } else { IgnorePlace(s, m); }
  }

  lemma ClaimPlace(s: State, m: Msg)
    requires Inv(s) && s.reader == Idle && m.id in s.pending
    ensures OnePlace(TakeLine(s, m))
  {}

  lemma IgnorePlace(s: State, m: Msg)
    requires Inv(s) && s.reader == Idle && m.id !in s.pending
    ensures OnePlace(TakeLine(s, m))
  {}

  lemma DeliverIds(s: State, m: Msg)
    requires Inv(s) && s.reader == Delivering(m)
    ensures IdsUnique(PutInChannel(s, m)) && PendingIsLive(PutInChannel(s, m))
  {}

  lemma DeliverMatched(s: State, m: Msg)
    requires Inv(s) && s.reader == Delivering(m)
    ensures Known(PutInChannel(s, m)) && MatchedFirst(PutInChannel(s, m))
  {}

  lemma DeliverPlace(s: State, m: Msg)
    requires Inv(s) && s.reader == Delivering(m)
    ensures OnePlace(PutInChannel(s, m))
  {}

  lemma DrawIds(s: State, k: nat)
    requires Inv(s) && k !in s.callers
    ensures IdsUnique(DrawId(s, k)) && PendingIsLive(DrawId(s, k))
  {}

  lemma DrawMatched(s: State, k: nat)
    requires Inv(s) && k !in s.callers
    ensures Known(DrawId(s, k)) && MatchedFirst(DrawId(s, k))
  {}

  lemma DrawPlace(s: State, k: nat)
    requires Inv(s) && k !in s.callers
    ensures OnePlace(DrawId(s, k))
  {}

  lemma DrawKeepsInv(s: State, k: nat)
    requires Inv(s) && k !in s.callers
    ensures Inv(DrawId(s, k))
  {
    DrawIds(s, k); DrawMatched(s, k); DrawPlace(s, k);
  }

  lemma CollectIds(s: State, k: nat)
    requires Inv(s) && k in s.callers && (s.callers[k].Waiting? || s.callers[k].Grace?) && Chan(s, s.callers[k].id) != []
    ensures IdsUnique(Collect(s, k)) && PendingIsLive(Collect(s, k))
  {}

  lemma CollectMatched(s: State, k: nat)
    requires Inv(s) && k in s.callers && (s.callers[k].Waiting? || s.callers[k].Grace?) && Chan(s, s.callers[k].id) != []
    ensures Known(Collect(s, k)) && MatchedFirst(Collect(s, k))
  {}

  lemma CollectPlace(s: State, k: nat)
    requires Inv(s) && k in s.callers && (s.callers[k].Waiting? || s.callers[k].Grace?) && Chan(s, s.callers[k].id) != []
    ensures OnePlace(Collect(s, k))
  {}

  lemma CollectKeepsInv(s: State, k: nat)
    requires Inv(s) && k in s.callers && (s.callers[k].Waiting? || s.callers[k].Grace?) && Chan(s, s.callers[k].id) != []
    ensures Inv(Collect(s, k))
  {
    CollectIds(s, k); CollectMatched(s, k); CollectPlace(s, k);
  }

  lemma ReturnIds(s: State, k: nat, o: Outcome)
    requires Inv(s) && k in s.callers && (s.callers[k].Filed? || s.callers[k].Waiting?) && !o.Got?
    ensures IdsUnique(Return(s, k, o)) && PendingIsLive(Return(s, k, o))
  {}

  lemma ReturnMatched(s: State, k: nat, o: Outcome)
    requires Inv(s) && k in s.callers && (s.callers[k].Filed? || s.callers[k].Waiting?) && !o.Got?
    ensures Known(Return(s, k, o)) && MatchedFirst(Return(s, k, o))
  {}

  lemma ReturnPlace(s: State, k: nat, o: Outcome)
    requires Inv(s) && k in s.callers && (s.callers[k].Filed? || s.callers[k].Waiting?) && !o.Got?
    ensures OnePlace(Return(s, k, o))
  {}

  lemma ReturnKeepsInv(s: State, k: nat, o: Outcome)
    requires Inv(s) && k in s.callers && (s.callers[k].Filed? || s.callers[k].Waiting?) && !o.Got?
    ensures Inv(Return(s, k, o))
  {
    ReturnIds(s, k, o); ReturnMatched(s, k, o); ReturnPlace(s, k, o);
  }

  lemma MoveIds(s: State, k: nat, p: Phase)
    requires Inv(s) && k in s.callers && p.id == s.callers[k].id
    requires (s.callers[k].Filed? && p.Waiting?) || (s.callers[k].Grace? && p.Done? && !p.outcome.Got?)
    ensures IdsUnique(Move(s, k, p)) && PendingIsLive(Move(s, k, p))
  {}

  lemma MoveMatched(s: State, k: nat, p: Phase)
    requires Inv(s) && k in s.callers && p.id == s.callers[k].id
    requires (s.callers[k].Filed? && p.Waiting?) || (s.callers[k].Grace? && p.Done? && !p.outcome.Got?)
    ensures Known(Move(s, k, p)) && MatchedFirst(Move(s, k, p))
  {}

  lemma MovePlace(s: State, k: nat, p: Phase)
    requires Inv(s) && k in s.callers && p.id == s.callers[k].id
    requires (s.callers[k].Filed? && p.Waiting?) || (s.callers[k].Grace? && p.Done? && !p.outcome.Got?)
    ensures OnePlace(Move(s, k, p))
  {}

  lemma MoveKeepsInv(s: State, k: nat, p: Phase)
    requires Inv(s) && k in s.callers && p.id == s.callers[k].id
    requires (s.callers[k].Filed? && p.Waiting?) || (s.callers[k].Grace? && p.Done? && !p.outcome.Got?)
    ensures Inv(Move(s, k, p))
  {
    MoveIds(s, k, p); MoveMatched(s, k, p); MovePlace(s, k, p);
  }

  lemma {:induction false} ReachableInv(side: Side, acts: seq<Action>)
    requires Exec(side, acts).Some?
    ensures Inv(Exec(side, acts).value)
  {
    if acts != [] {
      ReachableInv(side, acts[..|acts| - 1]);
      NextKeepsInv(side, Exec(side, acts[..|acts| - 1]).value, acts[|acts| - 1]);
    }
  }

  // ----- main results -----

  /** No two requests ever carry the same id. */
  lemma IdsNeverReused(side: Side, acts: seq<Action>, j: nat, k: nat)
    requires Exec(side, acts).Some?
    requires var s := Exec(side, acts).value; j in s.callers && k in s.callers && j != k
    ensures var s := Exec(side, acts).value; s.callers[j].id != s.callers[k].id
  {
    ReachableInv(side, acts);
  }

  /**
   A caller that returns a message returns the first line with its own id that
   arrived after the id was filed, whatever else the peer sent and however often.
   */
  lemma ReplyReachesItsCaller(side: Side, acts: seq<Action>, k: nat)
    requires Exec(side, acts).Some?
    requires var s := Exec(side, acts).value; k in s.callers && s.callers[k].Done? && s.callers[k].outcome.Got?
    ensures var s := Exec(side, acts).value; var c := s.callers[k];
            && c.outcome.msg.id == c.id
            && c.id in s.log.filedAt && c.id in s.log.matched
            && FirstSince(s.log.lines, s.log.filedAt[c.id], c.id, s.log.matched[c.id])
            && s.log.lines[s.log.matched[c.id]] == c.outcome.msg
  {
    ReachableInv(side, acts);
  }

  /** A line read by the loop is returned by at most one caller. */
  lemma LineReachesOneCaller(side: Side, acts: seq<Action>, j: nat, k: nat)
    requires Exec(side, acts).Some?
    requires var s := Exec(side, acts).value;
             && j in s.callers && s.callers[j].Done? && s.callers[j].outcome.Got?
             && k in s.callers && s.callers[k].Done? && s.callers[k].outcome.Got?
    ensures var s := Exec(side, acts).value;
            && s.callers[j].id in s.log.matched && s.callers[k].id in s.log.matched
            && (s.log.matched[s.callers[j].id] == s.log.matched[s.callers[k].id] ==> j == k)
  {
    ReplyReachesItsCaller(side, acts, j);
    ReplyReachesItsCaller(side, acts, k);
    ReachableInv(side, acts);
  }

  /** The pending map holds only requests that have not returned or been cancelled, under their own ids. */
  lemma NoPendingOutlivesItsRequest(side: Side, acts: seq<Action>, id: nat)
    requires Exec(side, acts).Some? && id in Exec(side, acts).value.pending
    ensures var s := Exec(side, acts).value;
            s.pending[id] in s.callers && (s.callers[s.pending[id]] == Filed(id) || s.callers[s.pending[id]] == Waiting(id))
  {
    ReachableInv(side, acts);
  }

  /** The read loop can always complete the send it is about to make. */
  lemma ReadLoopNeverBlocks(side: Side, acts: seq<Action>)
    requires Exec(side, acts).Some? && Exec(side, acts).value.reader.Delivering?
    ensures Enabled(side, Exec(side, acts).value, Deliver)
    ensures Chan(Exec(side, acts).value, Exec(side, acts).value.reader.msg.id) == []
  {
    ReachableInv(side, acts);
  }

  /** A caller still waiting after the first line with its id has been read can always go on and receive it. */
  lemma MatchedReplyIsReceivable(side: Side, acts: seq<Action>, k: nat)
    requires Exec(side, acts).Some?
    requires var s := Exec(side, acts).value;
             k in s.callers && s.callers[k].Waiting? && s.callers[k].id in s.log.matched
    ensures var s := Exec(side, acts).value;
            Enabled(side, s, Receive(k)) || (s.reader.Delivering? && s.reader.msg.id == s.callers[k].id)
  {
    ReachableInv(side, acts);
    ReachableInTransit(side, acts);
  }

  /** A matched line whose caller has not yet returned is in the read loop's hand or in the channel. */
  ghost predicate InTransit(s: State) {
    forall k | k in s.callers && (s.callers[k].Filed? || s.callers[k].Waiting?) && s.callers[k].id in s.log.matched ::
      Chan(s, s.callers[k].id) != [] || (s.reader.Delivering? && s.reader.msg.id == s.callers[k].id)
  }

  lemma KeepsInTransit(side: Side, s: State, a: Action)
    requires InTransit(s) && Inv(s) && Enabled(side, s, a)
    ensures InTransit(Next(side, s, a))
  {
    match a
    case Receive(k) => CollectKeepsInTransit(s, k);
    case GraceReceive(k) => CollectKeepsInTransit(s, k);
    case File(k) => FileKeepsInTransit(s, k);
    case ReadLine(m) => ReadKeepsInTransit(s, m);
    case Deliver => DeliverKeepsInTransit(s, s.reader.msg);
    case Draw(k) => DrawKeepsInTransit(s, k);
    case Write(k) => MoveKeepsInTransit(s, k, Waiting(s.callers[k].id));
    case WriteFails(k) => MoveKeepsInTransit(s, k, Done(s.callers[k].id, SendErr));
    case Cancel(k) => MoveKeepsInTransit(s, k, if side == HostSide then Done(s.callers[k].id, CancelledErr) else Grace(s.callers[k].id));
    case SeeClosed(k) => MoveKeepsInTransit(s, k, Done(s.callers[k].id, ClosedErr));
    case GraceExpires(k) => MoveKeepsInTransit(s, k, Done(s.callers[k].id, CancelledErr));
    case DrawOther =>
    case Close =>
  }

  lemma MoveKeepsInTransit(s: State, k: nat, p: Phase)
    requires InTransit(s) && k in s.callers && p.id == s.callers[k].id
    requires p.Waiting? ==> s.callers[k].Filed? || s.callers[k].Waiting?
    requires !p.Filed?
    ensures InTransit(Move(s, k, p)) && InTransit(Move(s, k, p).(pending := s.pending - {p.id}))
  {}

  lemma DrawKeepsInTransit(s: State, k: nat)
    requires InTransit(s)
    ensures InTransit(DrawId(s, k))
  {}

  lemma ReadKeepsInTransit(s: State, m: Msg)
    requires InTransit(s) && s.reader == Idle
    ensures InTransit(TakeLine(s, m))
  {}

  lemma DeliverKeepsInTransit(s: State, m: Msg)
    requires InTransit(s) && s.reader == Delivering(m)
    ensures InTransit(PutInChannel(s, m))
  {}

  lemma CollectKeepsInTransit(s: State, k: nat)
    requires InTransit(s) && Inv(s) && k in s.callers && (s.callers[k].Waiting? || s.callers[k].Grace?) && Chan(s, s.callers[k].id) != []
    ensures InTransit(Collect(s, k))
  {}

  lemma FileKeepsInTransit(s: State, k: nat)
    requires InTransit(s) && Inv(s) && k in s.callers && s.callers[k].Allocated?
    ensures InTransit(FileId(s, k))
  {}

  lemma {:induction false} ReachableInTransit(side: Side, acts: seq<Action>)
    requires Exec(side, acts).Some?
    ensures InTransit(Exec(side, acts).value)
  {
    if acts != [] {
      ReachableInTransit(side, acts[..|acts| - 1]);
      ReachableInv(side, acts[..|acts| - 1]);
      KeepsInTransit(side, Exec(side, acts[..|acts| - 1]).value, acts[|acts| - 1]);
    }
  }
}
