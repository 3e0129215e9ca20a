/** Reassembling a streamed chat completion: text deltas and tool-call fragments arrive in any mix. */
module StreamAssembly {
  import opened Prelude
  import Conversation

  /** A tool call's arguments: none yet, or what its accumulated JSON text decodes to. */
  datatype Args = NoArgs | Decoded(json: string)

  datatype Block = Text(text: string) | Call(id: string, name: string, args: Args)

  /** One tool-call delta; a missing index reads as 0. */
  datatype Fragment = Fragment(index: int, id: string, name: string, args: string)

  datatype Usage = Usage(input: int, output: int, cacheRead: int)

  /**
   What one server event says: its usage, and of its first choice the text, the fragments and the finish reason.
   An event without choices carries none of the latter.
   */
  datatype Chunk = Chunk(text: string, calls: seq<Fragment>, usage: Option<Usage>, finish: string)

  /**
   A line of the response: a server event, or nothing to handle (blank, a comment, [DONE], undecodable). `cancelled` is
   whether the context has ended when the line has been scanned.
   */
  datatype SseLine = Data(chunk: Chunk, cancelled: bool) | Skipped(cancelled: bool)

  datatype Event =
    | TextDelta(text: string)
    | CallDelta(index: int, text: string)
    | Failed
    | Done(message: Finished)

  datatype Finished = Finished(content: seq<Block>, usage: Usage, stop: Option<Conversation.StopReason>)

  const NO_USAGE := Usage(0, 0, 0)

  /** Reasons outside the table count as a normal stop. */
  function MapStopReason(reason: string): Conversation.StopReason {
    if reason == "length" then Conversation.StopLength
    else if reason == "tool_calls" then Conversation.StopTool
    else Conversation.StopNormal
  }

  // ----- what a stream contains -----

  function JoinTexts(chunks: seq<Chunk>): string {
    if chunks == [] then "" else JoinTexts(chunks[..|chunks| - 1]) + chunks[|chunks| - 1].text
  }

  function JoinCalls(chunks: seq<Chunk>): seq<Fragment> {
    if chunks == [] then [] else JoinCalls(chunks[..|chunks| - 1]) + chunks[|chunks| - 1].calls
  }

  /** The number of calls the fragments open: an index that names no open call opens the next one. */
  function Count(fs: seq<Fragment>): nat {
    if fs == [] then 0
    else Count(fs[..|fs| - 1]) + if 0 <= fs[|fs| - 1].index < Count(fs[..|fs| - 1]) then 0 else 1
  }

  /** The call that a fragment with this index belongs to, after the fragments fs. */
  function Slot(fs: seq<Fragment>, index: int): nat {
    if 0 <= index < Count(fs) then index else Count(fs)
  }

  /** The argument text of call k's own fragments, in order. */
  function OwnArgs(fs: seq<Fragment>, k: nat): string {
    if fs == [] then ""
    else if Slot(fs[..|fs| - 1], fs[|fs| - 1].index) == k then OwnArgs(fs[..|fs| - 1], k) + fs[|fs| - 1].args
    else OwnArgs(fs[..|fs| - 1], k)
  }

  /** The argument text of the fragments that carry index k, in order. */
  function KeyedArgs(fs: seq<Fragment>, k: int): string {
    if fs == [] then ""
    else if fs[|fs| - 1].index == k then KeyedArgs(fs[..|fs| - 1], k) + fs[|fs| - 1].args
    else KeyedArgs(fs[..|fs| - 1], k)
  }

  function Newer(latest: string, before: string): string { if latest != "" then latest else before }

  /** The latest nonempty id among call k's own fragments. */
  function OwnId(fs: seq<Fragment>, k: nat): string {
    if fs == [] then ""
    else if Slot(fs[..|fs| - 1], fs[|fs| - 1].index) == k then Newer(fs[|fs| - 1].id, OwnId(fs[..|fs| - 1], k))
    else OwnId(fs[..|fs| - 1], k)
  }

  function OwnName(fs: seq<Fragment>, k: nat): string {
    if fs == [] then ""
    else if Slot(fs[..|fs| - 1], fs[|fs| - 1].index) == k then Newer(fs[|fs| - 1].name, OwnName(fs[..|fs| - 1], k))
    else OwnName(fs[..|fs| - 1], k)
  }

  // ----- where blocks stand -----

  /** Blocks in the order in which they were opened. */
  datatype Place = TextPlace | CallPlace(k: nat)

  /** What has been read so far: blocks opened, text, fragments, and the deltas passed on. */
  datatype Parsed = Parsed(places: seq<Place>, text: string, fs: seq<Fragment>, events: seq<Event>)

  function Say(p: Parsed, delta: string): Parsed {
    Parsed(if TextPlace in p.places then p.places else p.places + [TextPlace], p.text + delta, p.fs,
           p.events + [TextDelta(delta)])
  }

  function Open(p: Parsed, f: Fragment): Parsed {
    Parsed(if Slot(p.fs, f.index) < Count(p.fs) then p.places else p.places + [CallPlace(Count(p.fs))], p.text, p.fs + [f],
           if f.args != "" then p.events + [CallDelta(f.index, f.args)] else p.events)
  }

  function OpenAll(p: Parsed, calls: seq<Fragment>): Parsed {
    if calls == [] then p else Open(OpenAll(p, calls[..|calls| - 1]), calls[|calls| - 1])
  }

  function Absorb(p: Parsed, c: Chunk): Parsed {
    OpenAll(if c.text != "" then Say(p, c.text) else p, c.calls)
  }

  function Parse(chunks: seq<Chunk>): Parsed {
    if chunks == [] then Parsed([], "", [], []) else Absorb(Parse(chunks[..|chunks| - 1]), chunks[|chunks| - 1])
  }

  function NumCalls(ps: seq<Place>): nat {
    if ps == [] then 0 else NumCalls(ps[..|ps| - 1]) + if ps[|ps| - 1].CallPlace? then 1 else 0
  }

  /** Calls are numbered in order of position, and there is at most one text block. */
  ghost predicate Numbered(ps: seq<Place>) {
    && (forall i | 0 <= i < |ps| && ps[i].CallPlace? :: ps[i].k == NumCalls(ps[..i]))
    && (forall i, j | 0 <= i < j < |ps| :: ps[i].TextPlace? && ps[j].TextPlace? ==> false)
  }

  lemma NumberedSnoc(ps: seq<Place>, p: Place)
    requires Numbered(ps) && (if p.TextPlace? then TextPlace !in ps else p.k == NumCalls(ps))
    ensures Numbered(ps + [p])
  {
    assert forall i | 0 <= i <= |ps| :: (ps + [p])[..i] == ps[..i];
    assert ps[..|ps|] == ps;
  }

  lemma {:induction false} NumCallsPrefix(ps: seq<Place>, i: nat)
    requires i <= |ps|
    ensures NumCalls(ps[..i]) <= NumCalls(ps)
    ensures i < |ps| && ps[i].CallPlace? ==> NumCalls(ps[..i]) < NumCalls(ps)
    decreases |ps| - i
  {
    if i < |ps| {
      NumCallsPrefix(ps, i + 1);
      assert ps[..i + 1][..i] == ps[..i];
    } else {
      assert ps[..i] == ps;
    }
  }

  /** Every open call stands somewhere. */
  lemma {:induction false} CallStands(ps: seq<Place>, k: nat) returns (i: nat)
    requires Numbered(ps) && k < NumCalls(ps)
    ensures i < |ps| && ps[i] == CallPlace(k)
  {
    var front := ps[..|ps| - 1];
    assert forall j | 0 <= j < |front| :: front[..j] == ps[..j];
    if k < NumCalls(front) {
      i := CallStands(front, k);
    } else {
      i := |ps| - 1;
    }
  }

  lemma CallsRise(ps: seq<Place>, i: nat, j: nat)
    requires Numbered(ps) && i < j < |ps| && ps[i].CallPlace? && ps[j].CallPlace?
    ensures ps[i].k < ps[j].k
  {
    NumCallsPrefix(ps[..j], i);
    assert ps[..j][..i] == ps[..i];
  }

  // ----- the finished message -----

  function ArgsOf(valid: string -> bool, json: string): Args {
    if json != "" && valid(json) then Decoded(json) else NoArgs
  }

  function BlockAt(valid: string -> bool, text: string, fs: seq<Fragment>, p: Place): Block {
    match p
    case TextPlace => Text(text)
    case CallPlace(k) => Call(OwnId(fs, k), OwnName(fs, k), ArgsOf(valid, KeyedArgs(fs, k)))
  }

  /** Block by block, in the order the blocks were opened. */
  ghost predicate Message(valid: string -> bool, chunks: seq<Chunk>, content: seq<Block>) {
    var p := Parse(chunks);
    && |content| == |p.places|
    && forall i | 0 <= i < |p.places| :: content[i] == BlockAt(valid, p.text, p.fs, p.places[i])
  }

  // ----- the text is whole, in one block -----

  lemma NumCallsSnoc(ps: seq<Place>, p: Place)
    ensures NumCalls(ps + [p]) == NumCalls(ps) + if p.CallPlace? then 1 else 0
  {
    assert (ps + [p])[..|ps|] == ps;
  }

  lemma CountSnoc(fs: seq<Fragment>, f: Fragment)
    ensures Count(fs + [f]) == if 0 <= f.index < Count(fs) then Count(fs) else Count(fs) + 1
  {
    assert (fs + [f])[..|fs|] == fs;
  }

  ghost predicate Sound(p: Parsed) {
    Numbered(p.places) && NumCalls(p.places) == Count(p.fs) && (TextPlace in p.places <==> p.text != "")
  }

  lemma SaySound(p: Parsed, delta: string)
    requires Sound(p) && delta != ""
    ensures Sound(Say(p, delta))
  {
    if TextPlace !in p.places {
      NumCallsSnoc(p.places, TextPlace);
      NumberedSnoc(p.places, TextPlace);
      assert TextPlace in p.places + [TextPlace];
    }
  }

  lemma OpenSound(p: Parsed, f: Fragment)
    requires Sound(p)
    ensures Sound(Open(p, f))
  {
    CountSnoc(p.fs, f);
    if Slot(p.fs, f.index) >= Count(p.fs) { PlaceCall(p.places); }
  }

  lemma PlaceCall(ps: seq<Place>)
    requires Numbered(ps)
    ensures var more := ps + [CallPlace(NumCalls(ps))];
            Numbered(more) && NumCalls(more) == NumCalls(ps) + 1 && (TextPlace in more <==> TextPlace in ps)
  {
    NumCallsSnoc(ps, CallPlace(NumCalls(ps)));
    NumberedSnoc(ps, CallPlace(NumCalls(ps)));
  }

  lemma {:induction false} OpenAllSound(p: Parsed, calls: seq<Fragment>)
    requires Sound(p)
    ensures Sound(OpenAll(p, calls))
  {
    if calls != [] {
      OpenAllSound(p, calls[..|calls| - 1]);
      OpenSound(OpenAll(p, calls[..|calls| - 1]), calls[|calls| - 1]);
    }
  }

  /** Reading fragments adds them to what was read and touches no text. */
  lemma {:induction false} OpenAllKeeps(p: Parsed, calls: seq<Fragment>)
    ensures OpenAll(p, calls).text == p.text && OpenAll(p, calls).fs == p.fs + calls
  {
    if calls != [] {
      var front, f := calls[..|calls| - 1], calls[|calls| - 1];
      OpenAllKeeps(p, front);
      assert p.fs + calls == (p.fs + front) + [f];
    }
  }

  /** Reading loses nothing: the text is the join of the text deltas, the fragments are those of the chunks. */
  lemma {:induction false} ParseSound(chunks: seq<Chunk>)
    ensures Sound(Parse(chunks)) && Parse(chunks).text == JoinTexts(chunks) && Parse(chunks).fs == JoinCalls(chunks)
  {
    if chunks != [] {
      var p, c := Parse(chunks[..|chunks| - 1]), chunks[|chunks| - 1];
      ParseSound(chunks[..|chunks| - 1]);
      if c.text != "" {
        SaySound(p, c.text);
        OpenAllSound(Say(p, c.text), c.calls);
        OpenAllKeeps(Say(p, c.text), c.calls);
      } else {
        OpenAllSound(p, c.calls);
        OpenAllKeeps(p, c.calls);
      }
    }
  }

  /** All text deltas end up concatenated in a single block; without text there is no such block. */
  lemma OneTextBlock(valid: string -> bool, chunks: seq<Chunk>, content: seq<Block>)
    requires Message(valid, chunks, content)
    ensures forall i, j | 0 <= i < |content| && 0 <= j < |content| :: content[i].Text? && content[j].Text? ==> i == j
    ensures forall i | 0 <= i < |content| && content[i].Text? :: content[i].text == JoinTexts(chunks)
    ensures (exists i :: 0 <= i < |content| && content[i].Text?) <==> JoinTexts(chunks) != ""
  {
    ParseSound(chunks);
    var ps := Parse(chunks).places;
    assert forall i | 0 <= i < |ps| :: content[i].Text? <==> ps[i] == TextPlace;
    if TextPlace in ps {
      var i :| 0 <= i < |ps| && ps[i] == TextPlace;
      assert content[i].Text?;
    }
  }

  // ----- arguments go to the call they belong to -----

  /** Every fragment with argument text carries the number of the call it belongs to. */
  ghost predicate Filed(fs: seq<Fragment>) {
    forall i | 0 <= i < |fs| && fs[i].args != "" :: Slot(fs[..i], fs[i].index) == fs[i].index
  }

  /** New indices appear in order: each fragment names an open call or the next one. */
  ghost predicate InOrder(fs: seq<Fragment>) {
    forall i | 0 <= i < |fs| :: 0 <= fs[i].index <= Count(fs[..i])
  }

  lemma {:induction false} FiledKeeps(fs: seq<Fragment>, k: int)
    requires Filed(fs)
    ensures 0 <= k ==> KeyedArgs(fs, k) == OwnArgs(fs, k)
    ensures !(0 <= k < Count(fs)) ==> KeyedArgs(fs, k) == ""
  {
    if fs != [] {
      var front := fs[..|fs| - 1];
      assert forall i | 0 <= i < |front| :: front[..i] == fs[..i];
      FiledKeeps(front, k);
    }
  }

  lemma {:induction false} FirstMisfiled(fs: seq<Fragment>) returns (i: nat)
    requires !Filed(fs)
    ensures i < |fs| && fs[i].args != "" && Slot(fs[..i], fs[i].index) != fs[i].index && Filed(fs[..i])
  {
    var front := fs[..|fs| - 1];
    assert forall j | 0 <= j < |front| :: front[..j] == fs[..j];
    if Filed(front) {
      i := |fs| - 1;
    } else {
      i := FirstMisfiled(front);
    }
  }

  /** From a first misfiled fragment on, the call it opened is short of that fragment's text for good. */
  lemma {:induction false} MisfiledIsLost(fs: seq<Fragment>, i: nat)
    requires i < |fs| && fs[i].args != "" && Slot(fs[..i], fs[i].index) != fs[i].index && Filed(fs[..i])
    ensures Count(fs[..i]) < Count(fs)
    ensures |KeyedArgs(fs, Count(fs[..i]))| < |OwnArgs(fs, Count(fs[..i]))|
    decreases |fs|
  {
    var front := fs[..|fs| - 1];
    if i < |front| {
      assert front[..i] == fs[..i];
      MisfiledIsLost(front, i);
    } else {
      FiledKeeps(front, Count(front));
    }
  }

  /**
   Each call is finished with the text of exactly its own fragments if and only if
   every fragment with argument text carries its call's number.
   */
  lemma ArgumentsMatchIff(fs: seq<Fragment>)
    ensures (forall k: nat | k < Count(fs) :: KeyedArgs(fs, k) == OwnArgs(fs, k)) <==> Filed(fs)
  {
    if Filed(fs) {
      forall k: nat | k < Count(fs) ensures KeyedArgs(fs, k) == OwnArgs(fs, k) { FiledKeeps(fs, k); }
    } else {
      var i := FirstMisfiled(fs);
      MisfiledIsLost(fs, i);
    }
  }

  /**
   With indices in order, the k'th call block holds id, name and arguments of exactly
   the fragments that carry index k.
   */
  lemma InOrderCallsAreWhole(valid: string -> bool, chunks: seq<Chunk>, content: seq<Block>, i: nat)
    requires Message(valid, chunks, content) && InOrder(JoinCalls(chunks)) && i < |content| && content[i].Call?
    ensures var fs, k := JoinCalls(chunks), NumCalls(Parse(chunks).places[..i]);
            && k < Count(fs) && content[i].id == OwnId(fs, k) && content[i].name == OwnName(fs, k)
            && content[i].args == if OwnArgs(fs, k) != "" && valid(OwnArgs(fs, k)) then Decoded(OwnArgs(fs, k)) else NoArgs
    ensures forall j | 0 <= j < |JoinCalls(chunks)| ::
              Slot(JoinCalls(chunks)[..j], JoinCalls(chunks)[j].index) == JoinCalls(chunks)[j].index
  {
    ParseSound(chunks);
    NumCallsPrefix(Parse(chunks).places, i);
    FiledKeeps(JoinCalls(chunks), NumCalls(Parse(chunks).places[..i]));
  }

  /** And every call that was opened has its block. */
  lemma EveryCallHasItsBlock(valid: string -> bool, chunks: seq<Chunk>, content: seq<Block>, k: nat) returns (i: nat)
    requires Message(valid, chunks, content) && InOrder(JoinCalls(chunks)) && k < Count(JoinCalls(chunks))
    ensures var fs := JoinCalls(chunks);
            i < |content| && content[i] == Call(OwnId(fs, k), OwnName(fs, k), ArgsOf(valid, OwnArgs(fs, k)))
  {
    ParseSound(chunks);
    i := CallStands(Parse(chunks).places, k);
    FiledKeeps(JoinCalls(chunks), k);
  }

  lemma OneFragment(f: Fragment, chunk: Chunk)
    requires chunk.text == "" && chunk.calls == [f]
    ensures Parse([chunk]).places == [CallPlace(0)] && Parse([chunk]).fs == [f]
  {
    assert [chunk][..0] == [] && [f][..0] == [];
    assert Parse([]) == Parsed([], "", [], []) && OpenAll(Parse([]), []) == Parse([]) && Count([]) == 0;
  }

  /** A server that does not number its only call 0, whatever its arguments, gets that call finished without any. */
  lemma SkippedIndexLosesArguments(valid: string -> bool, f: Fragment, usage: Option<Usage>, finish: string, content: seq<Block>)
    requires f.index != 0 && f.args != "" && Message(valid, [Chunk("", [f], usage, finish)], content)
    ensures content == [Call(f.id, f.name, NoArgs)]
    ensures OwnArgs(JoinCalls([Chunk("", [f], usage, finish)]), 0) == f.args
  {
    var chunk := Chunk("", [f], usage, finish);
    assert [chunk][..0] == [] && [f][..0] == [];
    assert JoinCalls([]) == [] && Count([]) == 0;
    assert [] + [f] == [f];
    assert OwnArgs([], 0) == "" && KeyedArgs([], 0) == "" && OwnId([], 0) == "" && OwnName([], 0) == "";
    OneFragment(f, chunk);
  }

  // ----- events -----

  /** What a listener that joins the text deltas has. */
  function StreamedText(events: seq<Event>): string {
    if events == [] then ""
    else if events[|events| - 1].TextDelta? then StreamedText(events[..|events| - 1]) + events[|events| - 1].text
    else StreamedText(events[..|events| - 1])
  }

  function StreamedArgs(events: seq<Event>, k: int): string {
    if events == [] then ""
    else
      var e := events[|events| - 1];
      if e.CallDelta? && e.index == k then StreamedArgs(events[..|events| - 1], k) + e.text
      else StreamedArgs(events[..|events| - 1], k)
  }

  lemma StreamedSnoc(events: seq<Event>, e: Event, k: int)
    ensures StreamedText(events + [e]) == if e.TextDelta? then StreamedText(events) + e.text else StreamedText(events)
    ensures StreamedArgs(events + [e], k) ==
              if e.CallDelta? && e.index == k then StreamedArgs(events, k) + e.text else StreamedArgs(events, k)
  {
    assert (events + [e])[..|events|] == events;
  }

  lemma KeyedSnoc(fs: seq<Fragment>, f: Fragment, k: int)
    ensures KeyedArgs(fs + [f], k) == if f.index == k then KeyedArgs(fs, k) + f.args else KeyedArgs(fs, k)
  {
    assert (fs + [f])[..|fs|] == fs;
  }

  /** Joining the deltas gives the text and argument text read so far. */
  ghost predicate Streamed(p: Parsed, k: int) {
    StreamedText(p.events) == p.text && StreamedArgs(p.events, k) == KeyedArgs(p.fs, k)
  }

  lemma {:induction false} OpenAllStreamed(p: Parsed, calls: seq<Fragment>, k: int)
    requires Streamed(p, k)
    ensures Streamed(OpenAll(p, calls), k)
  {
    if calls != [] {
      var f := calls[|calls| - 1];
      var q := OpenAll(p, calls[..|calls| - 1]);
      OpenAllStreamed(p, calls[..|calls| - 1], k);
      StreamedSnoc(q.events, CallDelta(f.index, f.args), k);
      KeyedSnoc(q.fs, f, k);
    }
  }

  /** A listener that joins the deltas holds exactly the text and argument text of the finished message. */
  lemma {:induction false} StreamedIsFinal(chunks: seq<Chunk>, k: int)
    ensures StreamedText(Parse(chunks).events) == JoinTexts(chunks)
    ensures StreamedArgs(Parse(chunks).events, k) == KeyedArgs(JoinCalls(chunks), k)
  {
    ParseSound(chunks);
    if chunks != [] {
      var p, c := Parse(chunks[..|chunks| - 1]), chunks[|chunks| - 1];
      StreamedIsFinal(chunks[..|chunks| - 1], k);
      ParseSound(chunks[..|chunks| - 1]);
      if c.text != "" {
        StreamedSnoc(p.events, TextDelta(c.text), k);
        OpenAllStreamed(Say(p, c.text), c.calls, k);
      } else {
        OpenAllStreamed(p, c.calls, k);
      }
    }
  }

  // ----- the parser -----

  function DraftAt(fs: seq<Fragment>, p: Place): Block {
    match p
    case TextPlace => Text("")
    case CallPlace(k) => Call(OwnId(fs, k), OwnName(fs, k), NoArgs)
  }

  /** The unfinished message: blocks in place, texts and arguments still in the builders. */
  ghost predicate Drafted(content: seq<Block>, ps: seq<Place>, fs: seq<Fragment>) {
    |content| == |ps| && forall i | 0 <= i < |ps| :: content[i] == DraftAt(fs, ps[i])
  }

  function TextBuilders(ps: seq<Place>, text: string): map<int, string> {
    map i | 0 <= i < |ps| && ps[i] == TextPlace :: text
  }

  lemma OpenText(ps: seq<Place>, text: string, delta: string)
    requires TextPlace !in ps
    ensures TextBuilders(ps + [TextPlace], delta) == TextBuilders(ps, text)[|ps| := delta]
  {
    forall i | 0 <= i < |ps| ensures ps[i] != TextPlace && (ps + [TextPlace])[i] == ps[i] { assert ps[i] in ps; }
  }

  lemma OpenCall(p: Parsed, f: Fragment)
    ensures TextBuilders(Open(p, f).places, p.text) == TextBuilders(p.places, p.text)
  {}

  function ArgBuilders(fs: seq<Fragment>): map<int, string> {
    if fs == [] then map[]
    else
      var before, f := ArgBuilders(fs[..|fs| - 1]), fs[|fs| - 1];
      if f.args == "" then before
      else before[f.index := (if f.index in before then before[f.index] else "") + f.args]
  }

  lemma {:induction false} ArgBuildersHold(fs: seq<Fragment>, k: int)
    ensures k in ArgBuilders(fs) <==> KeyedArgs(fs, k) != ""
    ensures k in ArgBuilders(fs) ==> ArgBuilders(fs)[k] == KeyedArgs(fs, k)
  {
    if fs != [] { ArgBuildersHold(fs[..|fs| - 1], k); }
  }

  lemma UpdateDraft(content: seq<Block>, ps: seq<Place>, fs: seq<Fragment>, f: Fragment, i: nat, b: Block)
    requires Numbered(ps) && Drafted(content, ps, fs) && 0 <= f.index < Count(fs) && i < |ps| && ps[i] == CallPlace(f.index)
    requires b == Call(Newer(f.id, content[i].id), Newer(f.name, content[i].name), NoArgs)
    ensures Drafted(content[i := b], ps, fs + [f])
  {
    assert (fs + [f])[..|fs|] == fs;
    forall j | 0 <= j < |ps| && j != i && ps[j].CallPlace? ensures ps[j].k != ps[i].k {
      if i < j { CallsRise(ps, i, j); } else { CallsRise(ps, j, i); }
    }
  }

  lemma AppendDraft(content: seq<Block>, ps: seq<Place>, fs: seq<Fragment>, f: Fragment)
    requires Numbered(ps) && NumCalls(ps) == Count(fs) && Drafted(content, ps, fs) && !(0 <= f.index < Count(fs))
    ensures Drafted(content + [Call(f.id, f.name, NoArgs)], ps + [CallPlace(Count(fs))], fs + [f])
  {
    assert (fs + [f])[..|fs|] == fs;
    NumberedSnoc(ps, CallPlace(Count(fs)));
    NumCallsSnoc(ps, CallPlace(Count(fs)));
    forall j | 0 <= j < |ps| && ps[j].CallPlace? ensures ps[j].k != Count(fs) { NumCallsPrefix(ps, j); }
    NoFragmentsYet(fs, Count(fs));
  }

  lemma {:induction false} NoFragmentsYet(fs: seq<Fragment>, k: nat)
    requires Count(fs) <= k
    ensures OwnId(fs, k) == "" && OwnName(fs, k) == ""
  {
    if fs != [] { NoFragmentsYet(fs[..|fs| - 1], k); }
  }

  class Assembly {
    var content: seq<Block>
    var textBuilders: map<int, string>
    var toolArgs: map<int, string>
    var events: seq<Event>
    /** What has been read. */
    ghost var p: Parsed

    /** Blocks are in place, the builders hold their share, and every delta was passed on. */
    ghost predicate Valid()
      reads this
    {
      && Drafted(content, p.places, p.fs)
      && textBuilders == TextBuilders(p.places, p.text) && toolArgs == ArgBuilders(p.fs)
      && events == p.events
    }

    constructor ()
      ensures Valid() && p == Parse([])
    {
      content, textBuilders, toolArgs, events := [], map[], map[], [];
      p := Parse([]);
    }

    /** The position of the first text block, or -1. */
    method FindText() returns (at: int)
      requires Drafted(content, p.places, p.fs)
      ensures if TextPlace in p.places then 0 <= at < |p.places| && p.places[at] == TextPlace else at == -1
    {
      for i := 0 to |content|
        invariant forall j | 0 <= j < i :: p.places[j] != TextPlace
      {
        if content[i].Text? { return i; }
      }
      return -1;
    }

    method AppendText(delta: string)
      requires delta != "" && Sound(p)
      requires Drafted(content, p.places, p.fs) && textBuilders == TextBuilders(p.places, p.text)
      modifies `content, `textBuilders
      ensures Drafted(content, Say(p, delta).places, p.fs)
      ensures textBuilders == TextBuilders(Say(p, delta).places, p.text + delta)
    {
      var i := FindText();
      if i >= 0 {
        var b := if i in textBuilders then textBuilders[i] else "";
        textBuilders := textBuilders[i := b + delta];
        assert forall j | 0 <= j < |p.places| && p.places[j] == TextPlace :: j == i;
      } else {
        var idx := |content|;
        content := content + [Text("")];
        textBuilders := textBuilders[idx := delta];
        OpenText(p.places, p.text, delta);
        assert p.text + delta == delta;
      }
    }

    /** The position of the idx'th call block, or -1. */
    method FindToolCallAt(idx: int) returns (at: int)
      requires var ps := p.places;
               Numbered(ps) && |content| == |ps| && forall i | 0 <= i < |ps| :: content[i].Call? <==> ps[i].CallPlace?
      ensures if 0 <= idx < NumCalls(p.places) then 0 <= at < |content| && p.places[at] == CallPlace(idx) else at == -1
    {
      ghost var ps := p.places;
      var toolIdx := 0;
      for i := 0 to |content|
        invariant toolIdx == NumCalls(ps[..i]) && !(0 <= idx < toolIdx)
      {
        assert ps[..i + 1][..i] == ps[..i];
        if content[i].Call? {
          if toolIdx == idx {
            NumCallsPrefix(ps, i);
            return i;
          }
          toolIdx := toolIdx + 1;
        }
      }
      assert ps[..|content|] == ps;
      return -1;
    }

    method EnsureToolCall(f: Fragment)
      requires Sound(p) && Drafted(content, p.places, p.fs)
      modifies `content
      ensures Drafted(content, Open(p, f).places, p.fs + [f])
    {
      var i := FindToolCallAt(f.index);
      if i >= 0 {
        var existing := content[i];
        if f.id != "" { existing := existing.(id := f.id); }
        if f.name != "" { existing := existing.(name := f.name); }
        UpdateDraft(content, p.places, p.fs, f, i, existing);
        content := content[i := existing];
      } else {
        AppendDraft(content, p.places, p.fs, f);
        content := content + [Call(f.id, f.name, NoArgs)];
      }
    }

    method AddArgs(f: Fragment)
      requires toolArgs == ArgBuilders(p.fs) && events == p.events
      modifies `toolArgs, `events
      ensures toolArgs == ArgBuilders(p.fs + [f]) && events == Open(p, f).events
    {
      assert (p.fs + [f])[..|p.fs|] == p.fs;
      if f.args != "" {
        if f.index !in toolArgs { toolArgs := toolArgs[f.index := ""]; }
        toolArgs := toolArgs[f.index := toolArgs[f.index] + f.args];
        events := events + [CallDelta(f.index, f.args)];
      }
    }

    method HandleText(delta: string)
      requires Valid() && delta != "" && Sound(p)
      modifies this
      ensures Valid() && p == Say(old(p), delta)
    {
      events := events + [TextDelta(delta)];
      AppendText(delta);
      p := Say(p, delta);
    }

    method HandleCall(f: Fragment)
      requires Valid() && Sound(p)
      modifies this
      ensures Valid() && p == Open(old(p), f)
    {
      EnsureToolCall(f);
      AddArgs(f);
      OpenCall(p, f);
      p := Open(p, f);
    }

    method HandleCalls(calls: seq<Fragment>)
      requires Valid() && Sound(p)
      modifies this
      ensures Valid() && p == OpenAll(old(p), calls)
    {
      for i := 0 to |calls|
        invariant Valid() && p == OpenAll(old(p), calls[..i])
      {
        OpenAllSound(old(p), calls[..i]);
        assert calls[..i + 1][..i] == calls[..i];
        HandleCall(calls[i]);
      }
      assert calls[..|calls|] == calls;
    }

    method Handle(c: Chunk)
      requires Valid() && Sound(p)
      modifies this
      ensures Valid() && p == Absorb(old(p), c)
    {
      if c.text != "" {
        SaySound(p, c.text);
        HandleText(c.text);
      }
      HandleCalls(c.calls);
    }

    method FinalizeText()
      requires Drafted(content, p.places, p.fs) && textBuilders == TextBuilders(p.places, p.text)
      modifies `content
      ensures |content| == |p.places|
      ensures forall i | 0 <= i < |p.places| :: content[i] == if p.places[i] == TextPlace then Text(p.text) else DraftAt(p.fs, p.places[i])
    {
      var todo := textBuilders.Keys;
      while todo != {}
        invariant todo <= textBuilders.Keys && |content| == |p.places|
        invariant forall i | 0 <= i < |p.places| ::
                    content[i] == if p.places[i] == TextPlace && i !in todo then Text(p.text) else DraftAt(p.fs, p.places[i])
        decreases |todo|
      {
        NonEmpty(todo);
        var idx: int :| idx in todo;
        if idx < |content| {
          content := content[idx := Text(textBuilders[idx])];
        }
        todo := todo - {idx};
      }
    }

    /** The map is iterated in no particular order; every order gives the same blocks. */
    method FinalizeTools(valid: string -> bool)
      requires Numbered(p.places) && NumCalls(p.places) == Count(p.fs) && |content| == |p.places| && toolArgs == ArgBuilders(p.fs)
      requires forall i | 0 <= i < |p.places| :: content[i] == if p.places[i] == TextPlace then Text(p.text) else DraftAt(p.fs, p.places[i])
      modifies `content
      ensures |content| == |p.places| && forall i | 0 <= i < |p.places| :: content[i] == BlockAt(valid, p.text, p.fs, p.places[i])
    {
      forall k: int ensures k in toolArgs <==> KeyedArgs(p.fs, k) != "" { ArgBuildersHold(p.fs, k); }
      var todo := toolArgs.Keys;
      while todo != {}
        invariant todo <= toolArgs.Keys && |content| == |p.places|
        invariant forall i | 0 <= i < |p.places| ::
                    content[i] == if p.places[i].CallPlace? && p.places[i].k in todo then DraftAt(p.fs, p.places[i])
                                  else BlockAt(valid, p.text, p.fs, p.places[i])
        decreases |todo|
      {
        NonEmpty(todo);
        var idx: int :| idx in todo;
        ArgBuildersHold(p.fs, idx);
        var i := FindToolCallAt(idx);
        if i >= 0 {
          if valid(toolArgs[idx]) {
            content := content[i := content[i].(args := Decoded(toolArgs[idx]))];
          }
        }
        forall j | 0 <= j < |p.places| && j != i && p.places[j].CallPlace? ensures p.places[j].k != idx {
          NumCallsPrefix(p.places, j);
          if i >= 0 {
            if i < j { CallsRise(p.places, i, j); } else { CallsRise(p.places, j, i); }
          }
        }
        todo := todo - {idx};
      }
    }
  }

  lemma NonEmpty(s: set<int>)
    ensures s == {} || exists x: int :: x in s
  {
    if forall x: int :: x !in s { assert s == {}; }
  }

  // ----- usage and stop reason -----

  /** The usage of the last chunk that has one. */
  ghost predicate IsLastUsage(chunks: seq<Chunk>, u: Usage) {
    || ((forall i | 0 <= i < |chunks| :: chunks[i].usage == None) && u == NO_USAGE)
    || exists i :: 0 <= i < |chunks| && chunks[i].usage == Some(u) && forall j | i < j < |chunks| :: chunks[j].usage == None
  }

  /** The finish reason of the last chunk that has one. */
  ghost predicate IsLastFinish(chunks: seq<Chunk>, finish: string) {
    || ((forall i | 0 <= i < |chunks| :: chunks[i].finish == "") && finish == "")
    || exists i :: 0 <= i < |chunks| && chunks[i].finish == finish != "" && forall j | i < j < |chunks| :: chunks[j].finish == ""
  }

  function LastUsage(chunks: seq<Chunk>): Usage {
    if chunks == [] then NO_USAGE
    else if chunks[|chunks| - 1].usage.Some? then chunks[|chunks| - 1].usage.value
    else LastUsage(chunks[..|chunks| - 1])
  }

  function LastFinish(chunks: seq<Chunk>): string {
    if chunks == [] then ""
    else if chunks[|chunks| - 1].finish != "" then chunks[|chunks| - 1].finish
    else LastFinish(chunks[..|chunks| - 1])
  }

  function StopOf(finish: string): Option<Conversation.StopReason> {
    if finish == "" then None else Some(MapStopReason(finish))
  }

  lemma {:induction false} LastUsageAt(chunks: seq<Chunk>) returns (i: int)
    ensures -1 <= i < |chunks| && forall j | i < j < |chunks| :: chunks[j].usage == None
    ensures if i == -1 then LastUsage(chunks) == NO_USAGE else chunks[i].usage == Some(LastUsage(chunks))
  {
    i := |chunks| - 1;
    if chunks != [] && chunks[i].usage == None { i := LastUsageAt(chunks[..i]); }
  }

  lemma LastUsageIs(chunks: seq<Chunk>)
    ensures IsLastUsage(chunks, LastUsage(chunks))
  {
    var i := LastUsageAt(chunks);
  }

  lemma {:induction false} LastFinishAt(chunks: seq<Chunk>) returns (i: int)
    ensures -1 <= i < |chunks| && forall j | i < j < |chunks| :: chunks[j].finish == ""
    ensures if i == -1 then LastFinish(chunks) == "" else chunks[i].finish == LastFinish(chunks) != ""
  {
    i := |chunks| - 1;
    if chunks != [] && chunks[i].finish == "" { i := LastFinishAt(chunks[..i]); }
  }

  lemma LastFinishIs(chunks: seq<Chunk>)
    ensures IsLastFinish(chunks, LastFinish(chunks))
  {
    var i := LastFinishAt(chunks);
  }

  // ----- the deltas passed on -----

  /** The deltas of one event: its text, if any, then the argument text of each of its fragments, if any. */
  function DeltasOf(c: Chunk): seq<Event> {
    (if c.text != "" then [TextDelta(c.text)] else []) + ArgDeltas(c.calls)
  }

  function ArgDeltas(fs: seq<Fragment>): seq<Event> {
    if fs == [] then []
    else if fs[0].args != "" then [CallDelta(fs[0].index, fs[0].args)] + ArgDeltas(fs[1..])
    else ArgDeltas(fs[1..])
  }

  function AllDeltas(chunks: seq<Chunk>): seq<Event> {
    if chunks == [] then [] else DeltasOf(chunks[0]) + AllDeltas(chunks[1..])
  }

  lemma {:induction false} ArgDeltasSnoc(fs: seq<Fragment>, f: Fragment)
    ensures ArgDeltas(fs + [f]) == ArgDeltas(fs) + if f.args != "" then [CallDelta(f.index, f.args)] else []
  {
    if fs == [] {
      assert (fs + [f])[1..] == [];
    } else {
      ArgDeltasSnoc(fs[1..], f);
      assert (fs + [f])[1..] == fs[1..] + [f];
    }
  }

  lemma {:induction false} AllDeltasSnoc(chunks: seq<Chunk>, c: Chunk)
    ensures AllDeltas(chunks + [c]) == AllDeltas(chunks) + DeltasOf(c)
  {
    if chunks == [] {
      assert (chunks + [c])[1..] == [];
    } else {
      AllDeltasSnoc(chunks[1..], c);
      assert (chunks + [c])[1..] == chunks[1..] + [c];
    }
  }

  lemma {:induction false} OpenAllPasses(p: Parsed, calls: seq<Fragment>)
    ensures OpenAll(p, calls).events == p.events + ArgDeltas(calls)
  {
    if calls == [] {
      assert p.events + ArgDeltas(calls) == p.events;
    } else {
      var front, f := calls[..|calls| - 1], calls[|calls| - 1];
      OpenAllPasses(p, front);
      ArgDeltasSnoc(front, f);
      assert calls == front + [f];
    }
  }

  lemma AbsorbPasses(p: Parsed, c: Chunk)
    ensures Absorb(p, c).events == p.events + DeltasOf(c)
  {
    OpenAllPasses(if c.text != "" then Say(p, c.text) else p, c.calls);
    if c.text != "" {
      assert (p.events + [TextDelta(c.text)]) + ArgDeltas(c.calls) == p.events + ([TextDelta(c.text)] + ArgDeltas(c.calls));
    } else {
      assert [] + ArgDeltas(c.calls) == ArgDeltas(c.calls);
    }
  }

  /** The events passed on are the deltas of the chunks read, in order. */
  lemma {:induction false} ParsePasses(chunks: seq<Chunk>)
    ensures Parse(chunks).events == AllDeltas(chunks)
  {
    if chunks != [] {
      var front, c := chunks[..|chunks| - 1], chunks[|chunks| - 1];
      ParsePasses(front);
      AbsorbPasses(Parse(front), c);
      AllDeltasSnoc(front, c);
      assert chunks == front + [c];
    }
  }

  /** The stop reason for a finish reason; none given, or an unknown one, is a normal stop. */
  ghost predicate StopIs(finish: string, stop: Option<Conversation.StopReason>) {
    && (finish == "length" ==> stop == Some(Conversation.StopLength))
    && (finish == "tool_calls" ==> stop == Some(Conversation.StopTool))
    && (finish != "length" && finish != "tool_calls" ==> stop == Some(Conversation.StopNormal))
  }

  /** The stop reason of the last finish reason given, or none. */
  ghost predicate StopGiven(chunks: seq<Chunk>, stop: Option<Conversation.StopReason>) {
    exists finish :: IsLastFinish(chunks, finish) && if finish == "" then stop == None else StopIs(finish, stop)
  }

  lemma StopOfLast(chunks: seq<Chunk>)
    ensures StopGiven(chunks, StopOf(LastFinish(chunks)))
  {
    LastFinishIs(chunks);
  }

  lemma StopInTheEnd(chunks: seq<Chunk>, stop: Option<Conversation.StopReason>)
    requires StopGiven(chunks, stop)
    ensures exists finish :: IsLastFinish(chunks, finish) && StopIs(finish, if stop == None then Some(Conversation.StopNormal) else stop)
  {
    var finish :| IsLastFinish(chunks, finish) && if finish == "" then stop == None else StopIs(finish, stop);
    assert StopIs(finish, if stop == None then Some(Conversation.StopNormal) else stop);
  }

  // ----- reading the lines -----

  function Chunks(lines: seq<SseLine>): seq<Chunk> {
    if lines == [] then []
    else if lines[|lines| - 1].Data? then Chunks(lines[..|lines| - 1]) + [lines[|lines| - 1].chunk]
    else Chunks(lines[..|lines| - 1])
  }

  /** The lines are read up to the first at which the context is found to have ended. */
  predicate ReadUpTo(lines: seq<SseLine>, n: nat) {
    n <= |lines| && (forall i | 0 <= i < n :: !lines[i].cancelled) && (n < |lines| ==> lines[n].cancelled)
  }

  /**
   The message is finished from the chunks read before the context ended; a cancellation is reported by a failure
   event, unless no line comes after it.
   */
  method ParseResponse(valid: string -> bool, lines: seq<SseLine>)
    returns (r: Finished, events: seq<Event>, n: nat)
    ensures ReadUpTo(lines, n)
    ensures Message(valid, Chunks(lines[..n]), r.content)
    ensures IsLastUsage(Chunks(lines[..n]), r.usage)
    ensures StopGiven(Chunks(lines[..n]), r.stop)
    ensures events == AllDeltas(Chunks(lines[..n])) + (if n < |lines| then [Failed] else [])
  {
    var msg := new Assembly();
    var usage, finish;
    usage, finish, n := ScanSSE(msg, lines);
    ParseSound(Chunks(lines[..n]));
    LastUsageIs(Chunks(lines[..n]));
    StopOfLast(Chunks(lines[..n]));
    ParsePasses(Chunks(lines[..n]));
    msg.FinalizeText();
    msg.FinalizeTools(valid);
    r := Finished(msg.content, usage, StopOf(finish));
    events := msg.events + if n < |lines| then [Failed] else [];
  }

  /** What the reading loop has after these chunks. */
  ghost predicate Read(msg: Assembly, chunks: seq<Chunk>, usage: Usage, finish: string)
    reads msg
  {
    msg.Valid() && msg.p == Parse(chunks) && usage == LastUsage(chunks) && finish == LastFinish(chunks)
  }

  method ScanSSE(msg: Assembly, lines: seq<SseLine>) returns (usage: Usage, finish: string, n: nat)
    requires msg.Valid() && msg.p == Parse([])
    modifies msg
    ensures ReadUpTo(lines, n) && Read(msg, Chunks(lines[..n]), usage, finish)
  {
    usage, finish, n := NO_USAGE, "", 0;
    ghost var read := [];
    while n < |lines| && !lines[n].cancelled
      invariant n <= |lines| && forall i | 0 <= i < n :: !lines[i].cancelled
      invariant read == Chunks(lines[..n]) && Read(msg, read, usage, finish) == true   // as one fact, not part by part
    {
      usage, finish, read := HandleLine(msg, lines, n, usage, finish, read);
      n := n + 1;
    }
  }

  method HandleLine(msg: Assembly, lines: seq<SseLine>, n: nat, usage: Usage, finish: string, ghost read: seq<Chunk>)
    returns (newUsage: Usage, newFinish: string, ghost newRead: seq<Chunk>)
    requires n < |lines| && Read(msg, read, usage, finish) && read == Chunks(lines[..n])
    modifies msg
    ensures Read(msg, newRead, newUsage, newFinish) && newRead == Chunks(lines[..n + 1])
  {
    newUsage, newFinish, newRead := usage, finish, Chunks(lines[..n + 1]);
    ChunksNext(lines, n);
    if lines[n].Data? {
      newUsage, newFinish := HandleEvent(msg, lines[n].chunk, usage, finish, read);
    }
  }

  lemma ChunksNext(lines: seq<SseLine>, i: nat)
    requires i < |lines|
    ensures Chunks(lines[..i + 1]) == if lines[i].Data? then Chunks(lines[..i]) + [lines[i].chunk] else Chunks(lines[..i])
  {
    assert lines[..i + 1][..i] == lines[..i];
  }

  lemma ParseNext(chunks: seq<Chunk>, c: Chunk)
    ensures Parse(chunks + [c]) == Absorb(Parse(chunks), c) && Sound(Parse(chunks))
    ensures LastUsage(chunks + [c]) == if c.usage.Some? then c.usage.value else LastUsage(chunks)
    ensures LastFinish(chunks + [c]) == if c.finish != "" then c.finish else LastFinish(chunks)
  {
    ParseSound(chunks);
    assert (chunks + [c])[..|chunks|] == chunks;
  }

  method HandleEvent(msg: Assembly, c: Chunk, usage: Usage, finish: string, ghost before: seq<Chunk>)
    returns (newUsage: Usage, newFinish: string)
    requires Read(msg, before, usage, finish)
    modifies msg
    ensures Read(msg, before + [c], newUsage, newFinish)
  {
    ParseNext(before, c);
    newUsage := if c.usage.Some? then c.usage.value else usage;
    msg.Handle(c);
    newFinish := if c.finish != "" then c.finish else finish;
  }

  // ----- the whole stream -----

  function Terminals(events: seq<Event>): nat {
    if events == [] then 0
    else Terminals(events[..|events| - 1]) + if events[|events| - 1].Failed? || events[|events| - 1].Done? then 1 else 0
  }

  lemma TerminalsSnoc(events: seq<Event>, e: Event)
    ensures Terminals(events + [e]) == Terminals(events) + if e.Failed? || e.Done? then 1 else 0
  {
    assert (events + [e])[..|events|] == events;
  }

  lemma {:induction false} DeltasAreNotTerminal(p: Parsed, calls: seq<Fragment>)
    ensures Terminals(OpenAll(p, calls).events) == Terminals(p.events)
  {
    if calls != [] {
      var f := calls[|calls| - 1];
      DeltasAreNotTerminal(p, calls[..|calls| - 1]);
      TerminalsSnoc(OpenAll(p, calls[..|calls| - 1]).events, CallDelta(f.index, f.args));
    }
  }

  lemma {:induction false} ParsingIsNotTerminal(chunks: seq<Chunk>)
    ensures Terminals(Parse(chunks).events) == 0
  {
    if chunks != [] {
      var p, c := Parse(chunks[..|chunks| - 1]), chunks[|chunks| - 1];
      ParsingIsNotTerminal(chunks[..|chunks| - 1]);
      TerminalsSnoc(p.events, TextDelta(c.text));
      DeltasAreNotTerminal(if c.text != "" then Say(p, c.text) else p, c.calls);
    }
  }

  /** The message a stream ends with, having read these chunks. */
  ghost predicate Delivers(valid: string -> bool, chunks: seq<Chunk>, m: Finished) {
    && Message(valid, chunks, m.content) && IsLastUsage(chunks, m.usage)
    && exists finish :: IsLastFinish(chunks, finish) && StopIs(finish, m.stop)
  }

  /**
   A request that cannot be built or sent fails. Otherwise the deltas of the chunks read come first, in order, then a
   failure if the stream was cancelled while lines were still coming, and in any case the finished message. So there is
   exactly one terminal event unless it was cancelled so, and then there are two.
   */
  method RunStream(valid: string -> bool, built: bool, sent: bool, lines: seq<SseLine>)
    returns (events: seq<Event>, ghost n: nat)
    ensures !(built && sent) ==> events == [Failed]
    ensures built && sent ==> ReadUpTo(lines, n) && events != [] && events[|events| - 1].Done?
    ensures built && sent ==>
              && Delivers(valid, Chunks(lines[..n]), events[|events| - 1].message)
              && events[..|events| - 1] == AllDeltas(Chunks(lines[..n])) + if n < |lines| then [Failed] else []
    ensures Terminals(events) == 1 <==> !(built && sent && exists i :: 0 <= i < |lines| && lines[i].cancelled)
    ensures 1 <= Terminals(events) <= 2
  {
    n := 0;
    assert Terminals([]) == 0;
    TerminalsSnoc([], Failed);
    if !built || !sent { return [] + [Failed], n; }
    var r, deltas, read := ParseResponse(valid, lines);
    n := read;
    ParsePasses(Chunks(lines[..n]));
    ghost var parsed := Parse(Chunks(lines[..n])).events;
    ParsingIsNotTerminal(Chunks(lines[..n]));
    TerminalsSnoc(parsed, Failed);
    assert deltas == if n < |lines| then parsed + [Failed] else parsed;
    StopInTheEnd(Chunks(lines[..n]), r.stop);
    if r.stop == None { r := r.(stop := Some(Conversation.StopNormal)); }
    TerminalsSnoc(deltas, Done(r));
    events := deltas + [Done(r)];
  }
}
