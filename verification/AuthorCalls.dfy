/** What an extension holds, in terms of the calls its author made into the SDK, and what its host reads of it. */
module AuthorCalls {
  import opened Prelude
  import opened Registry
  import opened Bridge
  import opened Sdk
  import opened Handshake

  /** The registrations among the calls, in order. */
  function RegsOf(cs: seq<Call>): seq<Reg> {
    if cs == [] then []
    else if cs[|cs| - 1].Register? then RegsOf(cs[..|cs| - 1]) + [cs[|cs| - 1].reg]
    else RegsOf(cs[..|cs| - 1])
  }

  function ProvidersOf(regs: seq<Reg>): seq<Reg> {
    if regs == [] then []
    else if IsProvider(regs[|regs| - 1]) then ProvidersOf(regs[..|regs| - 1]) + [regs[|regs| - 1]]
    else ProvidersOf(regs[..|regs| - 1])
  }

  // ----- the fields after any calls -----

  /** Of tools, commands and shortcuts the latest registration of each name is kept. */
  ghost predicate TablesHold(tables: Tables, regs: seq<Reg>) {
    forall k: TableKind, n: string | k != StreamProviders :: Lookup(tables[k], n) == LastEntry(regs, k, n)
  }

  /**
   What the calls left: of tools, commands and shortcuts the latest of each name, the lists in the order of
   registration, the latest compactor; and every provider was announced at once, in order.
   */
  ghost predicate HoldsCalls(s: Own, regs: seq<Reg>) {
    && TablesHold(s.tables, regs)
    && s.listed == Collect(regs).listed
    && s.compactor == LastCompact(regs)
    && RegsIn(s.sent) == ProvidersOf(regs)
  }

  lemma TablesNext(tables: Tables, regs: seq<Reg>, k: TableKind, item: Item)
    requires TablesHold(tables, regs) && k != StreamProviders
    ensures TablesHold(tables[k := tables[k][item.name := item]], regs + [Entry(k, item)])
  {
    var after := tables[k := tables[k][item.name := item]];
    forall t: TableKind, n: string | t != StreamProviders ensures Lookup(after[t], n) == LastEntry(regs + [Entry(k, item)], t, n) {
      EntrySnoc(regs, Entry(k, item), t, n);
      NothingElse(Entry(k, item));
    }
  }

  lemma TablesSame(tables: Tables, regs: seq<Reg>, reg: Reg)
    requires TablesHold(tables, regs) && (reg.Entry? ==> reg.table == StreamProviders)
    ensures TablesHold(tables, regs + [reg])
  {
    forall t: TableKind, n: string | t != StreamProviders ensures LastEntry(regs + [reg], t, n) == LastEntry(regs, t, n) {
      EntrySnoc(regs, reg, t, n);
      NothingElse(reg);
    }
  }

  lemma OthersNext(regs: seq<Reg>, reg: Reg)
    ensures Collect(regs + [reg]) == CollectOne(Collect(regs), reg)
    ensures LastCompact(regs + [reg]) == if reg.Compact? then Some(reg.item) else LastCompact(regs)
    ensures ProvidersOf(regs + [reg]) == ProvidersOf(regs) + if IsProvider(reg) then [reg] else []
  {
    assert (regs + [reg])[..|regs|] == regs;
  }

  lemma WrittenNext(lines: seq<Line>, line: Line)
    ensures RegsIn(lines + [line]) == RegsIn(lines) + if line.Announces? then [line.reg] else []
  {
    assert (lines + [line])[..|lines|] == lines;
  }

  lemma HoldsNext(s: Own, regs: seq<Reg>, reg: Reg)
    requires HoldsCalls(s, regs)
    ensures HoldsCalls(AfterCall(s, Register(reg)), regs + [reg])
  {
    OthersNext(regs, reg);
    match reg {
      case Entry(k, item) =>
        if k == StreamProviders {
          TablesSame(s.tables, regs, reg);
          WrittenNext(s.sent, Announces(reg));
        } else {
          TablesNext(s.tables, regs, k, item);
        }
      case Listed(_, _) => TablesSame(s.tables, regs, reg);
      case Compact(_) => TablesSame(s.tables, regs, reg);
    }
  }

  lemma HoldsNothing()
    ensures HoldsCalls(BLANK.own, [])
  {
    assert forall k: TableKind, n: string :: LastEntry([], k, n) == None;
  }

  lemma {:induction false} CallsAreHeld(cs: seq<Call>)
    ensures HoldsCalls(AfterCalls(BLANK.own, cs), RegsOf(cs))
  {
    if cs == [] {
      HoldsNothing();
    } else {
      var front, last := cs[..|cs| - 1], cs[|cs| - 1];
      CallsAreHeld(front);
      if last.Register? {
        HoldsNext(AfterCalls(BLANK.own, front), RegsOf(front), last.reg);
      } else {
        WrittenNext(AfterCalls(BLANK.own, front).sent, OtherLine);
      }
    }
  }

  // ----- runs -----

  predicate Asked(evs: seq<Event>) {
    evs != [] && (evs[|evs| - 1].Initialize? || Asked(evs[..|evs| - 1]))
  }

  /** The calls made up to the answer, those of the hook included; all of them if it has not been asked. */
  function CallsMade(evs: seq<Event>): seq<Call> {
    if evs == [] then []
    else
      var made := CallsMade(evs[..|evs| - 1]);
      if Asked(evs[..|evs| - 1]) then made
      else match evs[|evs| - 1]
        case Calls(c) => made + [c]
        case Initialize(hook, _) => made + hook
  }

  lemma {:induction false} AfterCallsConcat(s: Own, xs: seq<Call>, ys: seq<Call>)
    ensures AfterCalls(s, xs + ys) == AfterCalls(AfterCalls(s, xs), ys)
  {
    if ys == [] {
      assert xs + ys == xs;
    } else {
      AfterCallsConcat(s, xs, ys[..|ys| - 1]);
      assert (xs + ys)[..|xs + ys| - 1] == xs + ys[..|ys| - 1];
    }
  }

  lemma AfterOneCall(s: Own, c: Call)
    ensures AfterCalls(s, [c]) == AfterCall(s, c)
  {
    assert [c][..0] == [] && AfterCalls(s, []) == s;
  }

  /** What the extension held when it answered, or holds if it has not been asked. */
  function HeldBy(p: Peer): Own { if p.reply.Some? then p.reply.value.own else p.own }

  lemma StepMakes(p: Peer, ev: Event, made: seq<Call>)
    requires Enabled(p, ev) && HeldBy(p) == AfterCalls(BLANK.own, made)
    ensures HeldBy(Next(p, ev)) ==
            AfterCalls(BLANK.own, if p.reply.Some? then made else if ev.Calls? then made + [ev.call] else made + ev.hook)
    ensures Next(p, ev).reply.Some? <==> p.reply.Some? || ev.Initialize?
  {
    AfterCallsConcat(BLANK.own, made, if ev.Calls? then [ev.call] else ev.hook);
    if ev.Calls? { AfterOneCall(HeldBy(p), ev.call); }
  }

  lemma {:induction false} HeldIsMade(evs: seq<Event>, p: Peer)
    requires Reaches(evs, p)
    ensures Asked(evs) <==> p.reply.Some?
    ensures HeldBy(p) == AfterCalls(BLANK.own, CallsMade(evs))
  {
    if evs != [] {
      var before :| Reaches(evs[..|evs| - 1], before) && Enabled(before, evs[|evs| - 1]) && p == Next(before, evs[|evs| - 1]);
      HeldIsMade(evs[..|evs| - 1], before);
      StepMakes(before, evs[|evs| - 1], CallsMade(evs[..|evs| - 1]));
    }
  }

  /**
   What an SDK extension held when it answered is what its author had registered by calls up to then, those of the
   initialization hook included.
   */
  lemma AnswersWithCalls(evs: seq<Event>, p: Peer)
    requires Reaches(evs, p) && p.reply.Some?
    ensures HoldsCalls(p.reply.value.own, RegsOf(CallsMade(evs)))
  {
    HeldIsMade(evs, p);
    CallsAreHeld(CallsMade(evs));
  }

  // ----- what the host reads -----

  lemma {:induction false} RegsInConcat(xs: seq<Line>, ys: seq<Line>)
    ensures RegsIn(xs + ys) == RegsIn(xs) + RegsIn(ys)
  {
    if ys == [] {
      assert xs + ys == xs;
    } else {
      RegsInConcat(xs, ys[..|ys| - 1]);
      assert (xs + ys)[..|xs + ys| - 1] == xs + ys[..|ys| - 1];
    }
  }

  lemma {:induction false} LastProvider(regs: seq<Reg>, n: string)
    ensures LastEntry(ProvidersOf(regs), StreamProviders, n) == LastEntry(regs, StreamProviders, n)
  {
    if regs != [] {
      LastProvider(regs[..|regs| - 1], n);
      var front := ProvidersOf(regs[..|regs| - 1]);
      if IsProvider(regs[|regs| - 1]) { assert (front + [regs[|regs| - 1]])[..|front|] == front; }
    }
  }

  /** The lines after the reply that the host had read as well. */
  function Late(p: Peer, n: nat): seq<Line>
    requires p.reply.Some? && p.reply.value.at < n <= |p.own.sent|
  {
    p.own.sent[p.reply.value.at + 1..n]
  }

  /** Registrations a, then b; of one kind or name they come to this. */
  ghost predicate Amounts(regs: seq<Reg>, a: seq<Reg>, b: seq<Reg>, k: TableKind, n: string, l: ListKind) {
    && LastEntry(regs, k, n) == LastEntry(a + b, k, n)
    && ListedItems(regs, l) == ListedItems(a + b, l)
    && LastCompact(regs) == LastCompact(a + b)
  }

  lemma AmountsSplit(a: seq<Reg>, b: seq<Reg>, k: TableKind, n: string, l: ListKind)
    ensures LastEntry(a + b, k, n) == Or(LastEntry(b, k, n), LastEntry(a, k, n))
    ensures ListedItems(a + b, l) == ListedItems(a, l) + ListedItems(b, l)
    ensures LastCompact(a + b) == Or(LastCompact(b), LastCompact(a))
  {
    EntryConcat(a, b, k, n);
    ListedConcat(a, b, l);
    CompactConcat(a, b);
  }

  /** Up to its answer, an extension wrote lines that amount to the calls made. */
  lemma AnswerAmountsToCalls(evs: seq<Event>, p: Peer, k: TableKind, n: string, l: ListKind)
    requires Reaches(evs, p) && p.reply.Some?
    ensures p.reply.value.at < |p.own.sent|
    ensures var read, regs := RegsIn(p.own.sent[..p.reply.value.at]), RegsOf(CallsMade(evs));
            && LastEntry(read, k, n) == LastEntry(regs, k, n)
            && ListedItems(read, l) == ListedItems(regs, l) && LastCompact(read) == LastCompact(regs)
  {
    RunAnswered(evs, p);
    AnswersWithCalls(evs, p);
    var own, regs, read := p.reply.value.own, RegsOf(CallsMade(evs)), RegsIn(p.own.sent[..p.reply.value.at]);
    OwnWhenAnswered(p.own.sent, p.reply.value);
    CollectEntries(read, k, n);
    if k == StreamProviders {
      CollectEntries(RegsIn(own.sent), k, n);
      LastProvider(regs, n);
    } else {
      EnumeratedIs(own.tables[k], k, Collect(read).entries[k], n);
    }
    CollectListed(read, l);
    CollectListed(regs, l);
    CollectCompact(read);
  }

  /**
   The lines a host has read when it bridges amount to what the author had registered up to the answer, and then the
   providers registered later that it had read too.
   */
  lemma ReadAmountsToCalls(evs: seq<Event>, p: Peer, n: nat, k: TableKind, name: string, l: ListKind)
    requires Reaches(evs, p) && p.reply.Some? && p.reply.value.at < n <= |p.own.sent|
    ensures OnlyProviders(Late(p, n))
    ensures Amounts(RegsIn(p.own.sent[..n]), RegsOf(CallsMade(evs)), RegsIn(Late(p, n)), k, name, l)
  {
    LateLines(evs, p, n);
    AnswerAmountsToCalls(evs, p, k, name, l);
    SameThenSame(RegsIn(p.own.sent[..p.reply.value.at]), RegsOf(CallsMade(evs)), RegsIn(Late(p, n)), k, name, l);
  }

  lemma SameThenSame(a: seq<Reg>, a': seq<Reg>, b: seq<Reg>, k: TableKind, n: string, l: ListKind)
    requires LastEntry(a, k, n) == LastEntry(a', k, n) && ListedItems(a, l) == ListedItems(a', l) && LastCompact(a) == LastCompact(a')
    ensures Amounts(a + b, a', b, k, n, l)
  {
    AmountsSplit(a, b, k, n, l);
    AmountsSplit(a', b, k, n, l);
  }

  lemma LateLines(evs: seq<Event>, p: Peer, n: nat)
    requires Reaches(evs, p) && p.reply.Some? && p.reply.value.at < n <= |p.own.sent|
    ensures OnlyProviders(Late(p, n))
    ensures RegsIn(p.own.sent[..n]) == RegsIn(p.own.sent[..p.reply.value.at]) + RegsIn(Late(p, n))
  {
    RunAnswered(evs, p);
    LateAreProviders(p.own.sent, p.reply.value, n);
    ReplyIsNoReg(p.own.sent, p.reply.value.at, n);
  }

  lemma LateAreProviders(sent: seq<Line>, r: Replied, n: nat)
    requires Answered(sent, r) && r.at < n <= |sent|
    ensures OnlyProviders(sent[r.at + 1..n])
  {
    assert sent[r.at + 1..n] == sent[r.at + 1..][..n - r.at - 1];
  }

  lemma ReplyIsNoReg(sent: seq<Line>, at: nat, n: nat)
    requires at < n <= |sent| && sent[at] == InitReply
    ensures RegsIn(sent[..n]) == RegsIn(sent[..at]) + RegsIn(sent[at + 1..n])
  {
    assert sent[..n] == sent[..at] + [InitReply] + sent[at + 1..n];
    RegsInConcat(sent[..at] + [InitReply], sent[at + 1..n]);
    WrittenNext(sent[..at], InitReply);
  }
}
