/**
 The handshake from both ends: what the host has collected when it reads the reply is what the extension had
 registered, and bridging puts exactly that into the app.
 */
module Handshake {
  import opened Prelude
  import opened Registry
  import opened Bridge
  import opened Sdk

  // ----- what a host collects from an announcement -----

  function CollectAll(a: Announced, regs: seq<Reg>): Announced {
    if regs == [] then a else CollectOne(CollectAll(a, regs[..|regs| - 1]), regs[|regs| - 1])
  }

  lemma {:induction false} CollectConcat(xs: seq<Reg>, ys: seq<Reg>)
    ensures Collect(xs + ys) == CollectAll(Collect(xs), ys)
  {
    if ys == [] {
      assert xs + ys == xs;
    } else {
      CollectConcat(xs, ys[..|ys| - 1]);
      assert (xs + ys)[..|xs + ys| - 1] == xs + ys[..|ys| - 1];
    }
  }

  lemma {:induction false} CollectAllConcat(a: Announced, xs: seq<Reg>, ys: seq<Reg>)
    ensures CollectAll(a, xs + ys) == CollectAll(CollectAll(a, xs), ys)
  {
    if ys == [] {
      assert xs + ys == xs;
    } else {
      CollectAllConcat(a, xs, ys[..|ys| - 1]);
      assert (xs + ys)[..|xs + ys| - 1] == xs + ys[..|ys| - 1];
    }
  }

  lemma {:induction false} CollectEntriesOf(a: Announced, k: TableKind, items: seq<Item>)
    ensures CollectAll(a, AsEntries(k, items)) == a.(entries := a.entries[k := a.entries[k] + items])
  {
    if items == [] {
      EntriesSame(a.entries, k);
    } else {
      var front, last := items[..|items| - 1], items[|items| - 1];
      CollectEntriesOf(a, k, front);
      CollectAllConcat(a, AsEntries(k, front), [Entry(k, last)]);
      CollectAllOne(CollectAll(a, AsEntries(k, front)), Entry(k, last));
      assert a.entries[k] + front + [last] == a.entries[k] + items;
    }
  }

  lemma EntriesSame(e: EntryLists, k: TableKind)
    ensures e[k := e[k] + []] == e
  {
    assert e[k] + [] == e[k];
  }

  lemma ListsSame(l: Lists, k: ListKind)
    ensures l[k := l[k] + []] == l
  {
    assert l[k] + [] == l[k];
  }

  lemma CollectAllOne(a: Announced, reg: Reg)
    ensures CollectAll(a, [reg]) == CollectOne(a, reg)
  {
    assert [reg][..0] == [];
    assert CollectAll(a, []) == a;
  }

  lemma {:induction false} CollectListedOf(a: Announced, k: ListKind, items: seq<Item>)
    ensures CollectAll(a, AsListed(k, items)) == a.(listed := a.listed[k := a.listed[k] + items])
  {
    if items == [] {
      ListsSame(a.listed, k);
    } else {
      var front, last := items[..|items| - 1], items[|items| - 1];
      CollectListedOf(a, k, front);
      CollectAllConcat(a, AsListed(k, front), [Listed(k, last)]);
      CollectAllOne(CollectAll(a, AsListed(k, front)), Listed(k, last));
      assert a.listed[k] + front + [last] == a.listed[k] + items;
    }
  }

  /** a and what h holds of one kind. */
  function WithKind(a: Announced, h: Announced, kind: Kind): Announced {
    match kind
    case OfTable(k) => a.(entries := a.entries[k := a.entries[k] + h.entries[k]])
    case OfList(k) => a.(listed := a.listed[k := a.listed[k] + h.listed[k]])
    case OfCompactor => a.(compactor := Or(h.compactor, a.compactor))
  }

  lemma CollectPiece(a: Announced, h: Announced, kind: Kind)
    ensures CollectAll(a, Piece(h, kind)) == WithKind(a, h, kind)
  {
    match kind
    case OfTable(k) => CollectEntriesOf(a, k, h.entries[k]);
    case OfList(k) => CollectListedOf(a, k, h.listed[k]);
    case OfCompactor => if h.compactor.Some? { CollectAllOne(a, Compact(h.compactor.value)); }
  }

  /** What is collected from the first i kinds of an announcement. */
  function Upto(a: Announced, h: Announced, i: nat): Announced { CollectAll(a, Pieces(h, Sending(i))) }

  lemma UptoNext(a: Announced, h: Announced, i: nat)
    ensures Upto(a, h, i + 1) == WithKind(Upto(a, h, i), h, KindAt(i))
  {
    PiecesNext(h, i);
    CollectAllConcat(a, Pieces(h, Sending(i)), Piece(h, KindAt(i)));
    CollectPiece(Upto(a, h, i), h, KindAt(i));
  }

  function TablePlace(k: TableKind): nat { match k case Tools => 0 case Commands => 1 case Shortcuts => 5 case StreamProviders => 9 }

  function ListPlace(k: ListKind): nat {
    match k case PromptSections => 2 case Interceptors => 3 case EventHandlers => 4 case MessageHooks => 6 case InputTransformers => 7
  }

  lemma WithKindEntries(a: Announced, h: Announced, i: nat, k: TableKind)
    requires i < 9
    ensures WithKind(a, h, KindAt(i)).entries[k] == if TablePlace(k) == i then a.entries[k] + h.entries[k] else a.entries[k]
  {}

  lemma WithKindListed(a: Announced, h: Announced, i: nat, l: ListKind)
    requires i < 9
    ensures WithKind(a, h, KindAt(i)).listed[l] == if ListPlace(l) == i then a.listed[l] + h.listed[l] else a.listed[l]
  {}

  lemma WithKindCompactor(a: Announced, h: Announced, i: nat)
    requires i < 9
    ensures WithKind(a, h, KindAt(i)).compactor == if i == 8 then Or(h.compactor, a.compactor) else a.compactor
  {}

  lemma {:induction false} UptoEntries(a: Announced, h: Announced, i: nat, k: TableKind)
    requires i <= 9
    ensures Upto(a, h, i).entries[k] == if TablePlace(k) < i then a.entries[k] + h.entries[k] else a.entries[k]
  {
    if i > 0 {
      UptoEntries(a, h, i - 1, k);
      UptoNext(a, h, i - 1);
      WithKindEntries(Upto(a, h, i - 1), h, i - 1, k);
    }
  }

  lemma {:induction false} UptoListed(a: Announced, h: Announced, i: nat, l: ListKind)
    requires i <= 9
    ensures Upto(a, h, i).listed[l] == if ListPlace(l) < i then a.listed[l] + h.listed[l] else a.listed[l]
  {
    if i > 0 {
      UptoListed(a, h, i - 1, l);
      UptoNext(a, h, i - 1);
      WithKindListed(Upto(a, h, i - 1), h, i - 1, l);
    }
  }

  lemma {:induction false} UptoCompactor(a: Announced, h: Announced, i: nat)
    requires i <= 8
    ensures Upto(a, h, i).compactor == a.compactor
  {
    if i > 0 {
      UptoCompactor(a, h, i - 1);
      UptoNext(a, h, i - 1);
      WithKindCompactor(Upto(a, h, i - 1), h, i - 1);
    }
  }

  lemma AllEntries(a: Announced, h: Announced, providers: seq<Item>)
    requires a.entries == NOTHING.entries[StreamProviders := providers] && h.entries[StreamProviders] == []
    ensures Upto(a, h, 9).entries == h.entries[StreamProviders := providers]
  {
    var got := Upto(a, h, 9).entries;
    forall k: TableKind ensures got[k] == h.entries[StreamProviders := providers][k] { UptoEntries(a, h, 9, k); }
  }

  lemma AllListed(a: Announced, h: Announced)
    requires a.listed == NOTHING.listed
    ensures Upto(a, h, 9).listed == h.listed
  {
    var got := Upto(a, h, 9).listed;
    forall l: ListKind ensures got[l] == h.listed[l] { UptoListed(a, h, 9, l); }
  }

  lemma LastCompactor(a: Announced, h: Announced)
    ensures Upto(a, h, 9).compactor == Or(h.compactor, a.compactor)
  {
    UptoCompactor(a, h, 8);
    UptoNext(a, h, 8);
    WithKindCompactor(Upto(a, h, 8), h, 8);
  }

  /** On top of nothing but providers, the announcement is collected as it is. */
  lemma CollectedOnTop(h: Announced, providers: seq<Item>)
    requires h.entries[StreamProviders] == []
    ensures Upto(NOTHING.(entries := NOTHING.entries[StreamProviders := providers]), h, 9) ==
            h.(entries := h.entries[StreamProviders := providers])
  {
    var a := NOTHING.(entries := NOTHING.entries[StreamProviders := providers]);
    AllEntries(a, h, providers);
    AllListed(a, h);
    LastCompactor(a, h);
  }

  // ----- providers are announced apart -----

  /** Nothing but providers is announced in these lines. */
  predicate OnlyProviders(lines: seq<Line>) {
    forall i | 0 <= i < |lines| && lines[i].Announces? :: IsProvider(lines[i].reg)
  }

  predicate IsProvider(reg: Reg) { reg.Entry? && reg.table == StreamProviders }

  function Providers(lines: seq<Line>): seq<Item> { Collect(RegsIn(lines)).entries[StreamProviders] }

  lemma {:induction false} OnlyProvidersCollected(lines: seq<Line>)
    requires OnlyProviders(lines)
    ensures Collect(RegsIn(lines)) == NOTHING.(entries := NOTHING.entries[StreamProviders := Providers(lines)])
  {
    if lines == [] {
      assert NOTHING.entries == NOTHING.entries[StreamProviders := []];
    } else {
      var n := |lines| - 1;
      OnlyProvidersCollected(lines[..n]);
      RegsInSnoc(lines, n);
      assert lines[..n + 1] == lines;
    }
  }

  lemma {:induction false} RegsInAnnounced(lines: seq<Line>, regs: seq<Reg>)
    ensures RegsIn(lines + AsLines(regs)) == RegsIn(lines) + regs
  {
    if regs == [] {
      assert lines + AsLines(regs) == lines;
    } else {
      var front, last := regs[..|regs| - 1], regs[|regs| - 1];
      RegsInAnnounced(lines, front);
      assert (lines + AsLines(regs))[..|lines + AsLines(regs)| - 1] == lines + AsLines(front);
      assert regs == front + [last];
    }
  }

  /** Announcing and collecting are inverse to each other. */
  lemma AnnouncedIsCollected(lines: seq<Line>, s: Own, o: Orders)
    requires OnlyProviders(lines)
    ensures Collect(RegsIn(lines + AsLines(Announcement(s, o)))) ==
            Holdings(s, o).(entries := Holdings(s, o).entries[StreamProviders := Providers(lines)])
  {
    RegsInAnnounced(lines, Announcement(s, o));
    CollectConcat(RegsIn(lines), Announcement(s, o));
    OnlyProvidersCollected(lines);
    CollectedOnTop(Holdings(s, o), Providers(lines));
  }

  // ----- runs of an extension -----

  datatype Event = Calls(call: Call) | Initialize(hook: seq<Call>, orders: Orders)

  /** `reply`: where the reply stands, and what the extension held when it announced. */
  datatype Peer = Peer(own: Own, reply: Option<Replied>)
  datatype Replied = Replied(at: nat, own: Own, orders: Orders)

  const BLANK := Peer(Own(map k: TableKind | true :: map[], map k: ListKind | true :: [], None, []), None)

  ghost predicate Enabled(s: Peer, ev: Event) {
    match ev
    case Calls(c) => Proper(c)
    case Initialize(hook, o) =>
      s.reply == None && (forall i | 0 <= i < |hook| :: Proper(hook[i])) && OrdersOf(AfterCalls(s.own, hook), o)
  }

  function Next(s: Peer, ev: Event): Peer {
    match ev
    case Calls(c) => s.(own := AfterCall(s.own, c))
    case Initialize(hook, o) =>
      var t := OnInitialize(s.own, hook, o);
      Peer(t, Some(Replied(|t.sent| - 1, AfterCalls(s.own, hook), o)))
  }

  ghost predicate Reaches(evs: seq<Event>, s: Peer) {
    if evs == [] then s == BLANK
    else exists before {:trigger Reaches(evs[..|evs| - 1], before)} ::
           Reaches(evs[..|evs| - 1], before) && Enabled(before, evs[|evs| - 1]) && s == Next(before, evs[|evs| - 1])
  }

  /** Everything but prompt sections has a name, under which the maps keep it. */
  ghost predicate WellNamed(s: Own) {
    && KeysAreNames(s.tables)
    && (forall k: TableKind, n | n in s.tables[k] :: n != "")
    && (forall k: ListKind, i | k != PromptSections && 0 <= i < |s.listed[k]| :: s.listed[k][i].name != "")
  }

  ghost predicate Answered(sent: seq<Line>, r: Replied) {
    && WellNamed(r.own) && OrdersOf(r.own, r.orders) && OnlyProviders(r.own.sent)
    && r.at < |sent| && sent[r.at] == InitReply && sent[..r.at] == r.own.sent + AsLines(Announcement(r.own, r.orders))
    && OnlyProviders(sent[r.at + 1..])
  }

  ghost predicate Inv(s: Peer) {
    WellNamed(s.own) && match s.reply case None => OnlyProviders(s.own.sent) case Some(r) => Answered(s.own.sent, r)
  }

  lemma CallKeeps(s: Own, c: Call)
    requires Proper(c) && WellNamed(s)
    ensures WellNamed(AfterCall(s, c))
    ensures s.sent <= AfterCall(s, c).sent && OnlyProviders(AfterCall(s, c).sent[|s.sent|..])
  {
    CallKeepsNames(s, c);
    CallWrites(s, c);
  }

  lemma CallKeepsNames(s: Own, c: Call)
    requires Proper(c) && WellNamed(s)
    ensures WellNamed(AfterCall(s, c))
  {
    match c
    case WriteOther =>
    case Register(Entry(k, item)) => EntryKeepsNames(s, k, item);
    case Register(Listed(k, item)) => ListedKeepsNames(s, k, item);
    case Register(Compact(item)) =>
  }

  lemma EntryKeepsNames(s: Own, k: TableKind, item: Item)
    requires WellNamed(s) && (k == StreamProviders || item.name != "")
    ensures WellNamed(AfterCall(s, Register(Entry(k, item))))
  {}

  lemma ListedKeepsNames(s: Own, k: ListKind, item: Item)
    requires WellNamed(s) && (k == PromptSections || item.name != "")
    ensures WellNamed(AfterCall(s, Register(Listed(k, item))))
  {}

  lemma CallWrites(s: Own, c: Call)
    ensures s.sent <= AfterCall(s, c).sent && OnlyProviders(AfterCall(s, c).sent[|s.sent|..])
  {}

  lemma {:induction false} CallsKeep(s: Own, cs: seq<Call>)
    requires WellNamed(s) && OnlyProviders(s.sent) && forall i | 0 <= i < |cs| :: Proper(cs[i])
    ensures WellNamed(AfterCalls(s, cs)) && OnlyProviders(AfterCalls(s, cs).sent)
  {
    if cs != [] {
      CallsKeep(s, cs[..|cs| - 1]);
      var before, after := AfterCalls(s, cs[..|cs| - 1]), AfterCalls(s, cs);
      CallKeeps(before, cs[|cs| - 1]);
      OnlyProvidersMore(before.sent, after.sent);
    }
  }

  lemma OnlyProvidersMore(xs: seq<Line>, ys: seq<Line>)
    requires xs <= ys && OnlyProviders(xs) && OnlyProviders(ys[|xs|..])
    ensures OnlyProviders(ys)
  {
    forall i | 0 <= i < |ys| && ys[i].Announces? ensures IsProvider(ys[i].reg) {
      if i < |xs| { assert ys[i] == xs[i]; } else { assert ys[i] == ys[|xs|..][i - |xs|]; }
    }
  }

  lemma AnsweredStays(sent: seq<Line>, more: seq<Line>, r: Replied)
    requires Answered(sent, r) && sent <= more && OnlyProviders(more[|sent|..])
    ensures Answered(more, r)
  {
    var tail, longer := sent[r.at + 1..], more[r.at + 1..];
    assert longer[|tail|..] == more[|sent|..];
    OnlyProvidersMore(tail, longer);
    assert more[..r.at] == sent[..r.at];
  }

  lemma StepKeeps(s: Peer, ev: Event)
    requires Inv(s) && Enabled(s, ev)
    ensures Inv(Next(s, ev))
  {
    match ev
    case Calls(c) =>
      CallKeeps(s.own, c);
      if s.reply == None {
        OnlyProvidersMore(s.own.sent, AfterCall(s.own, c).sent);
      } else {
        AnsweredStays(s.own.sent, AfterCall(s.own, c).sent, s.reply.value);
      }
    case Initialize(hook, o) =>
      CallsKeep(s.own, hook);
      var t := AfterCalls(s.own, hook);
      var lines := t.sent + AsLines(Announcement(t, o));
      assert (lines + [InitReply])[..|lines|] == lines && (lines + [InitReply])[|lines| + 1..] == [];
  }

  lemma {:induction false} RunKeeps(evs: seq<Event>, s: Peer)
    requires Reaches(evs, s)
    ensures Inv(s)
  {
    if evs != [] {
      var before :| Reaches(evs[..|evs| - 1], before) && Enabled(before, evs[|evs| - 1]) && s == Next(before, evs[|evs| - 1]);
      RunKeeps(evs[..|evs| - 1], before);
      StepKeeps(before, evs[|evs| - 1]);
    }
  }

  // ----- what the host holds when it bridges -----

  /** What the host has collected, having read the first n lines. */
  function Collected(s: Peer, n: nat): Announced
    requires n <= |s.own.sent|
  {
    Collect(RegsIn(s.own.sent[..n]))
  }

  /** The host's lists are the extension's own registrations as they were when it answered. */
  ghost predicate IsOwn(a: Announced, own: Own) {
    && Enumerates(own.tables[Tools], a.entries[Tools])
    && Enumerates(own.tables[Commands], a.entries[Commands])
    && Enumerates(own.tables[Shortcuts], a.entries[Shortcuts])
    && a.listed == own.listed && a.compactor == own.compactor
  }

  /**
   However far beyond the reply the host has read when it bridges, it holds exactly what the extension had registered
   when it answered; only providers may have been added since.
   */
  lemma ReplyMeansCollected(evs: seq<Event>, s: Peer, n: nat)
    requires Reaches(evs, s) && s.reply.Some? && s.reply.value.at < n <= |s.own.sent|
    ensures IsOwn(Collected(s, n), s.reply.value.own)
    ensures Providers(s.reply.value.own.sent) <= Collected(s, n).entries[StreamProviders]
  {
    RunAnswered(evs, s);
    var sent, r := s.own.sent, s.reply.value;
    OwnWhenAnswered(sent, r);
    forall i | r.at <= i < |sent| && sent[i].Announces? ensures IsProvider(sent[i].reg) { LaterLine(sent, r, i); }
    HeldIs(sent, r.at);
    HeldIs(sent, n);
    LaterProviders(sent, r.at, n);
  }

  lemma OwnWhenAnswered(sent: seq<Line>, r: Replied)
    requires Answered(sent, r)
    ensures IsOwn(Collect(RegsIn(sent[..r.at])), r.own)
    ensures Collect(RegsIn(sent[..r.at])).entries[StreamProviders] == Providers(r.own.sent)
  {
    AnnouncedIsCollected(r.own.sent, r.own, r.orders);
  }

  predicate SameButProviders(first: Announced, now: Announced) {
    && first.entries[StreamProviders] <= now.entries[StreamProviders]
    && now == first.(entries := first.entries[StreamProviders := now.entries[StreamProviders]])
  }

  lemma SameStays(first: Announced, now: Announced, reg: Reg)
    requires SameButProviders(first, now) && IsProvider(reg)
    ensures SameButProviders(first, CollectOne(now, reg))
  {}

  lemma SameAtFirst(a: Announced)
    ensures SameButProviders(a, a)
  {
    assert a.entries == a.entries[StreamProviders := a.entries[StreamProviders]];
  }

  lemma LaterLine(sent: seq<Line>, r: Replied, i: nat)
    requires Answered(sent, r) && r.at < i < |sent| && sent[i].Announces?
    ensures IsProvider(sent[i].reg)
  {
    assert sent[i] == sent[r.at + 1..][i - (r.at + 1)];
  }

  /** What the host holds after reading n lines, line by line. */
  function Held(lines: seq<Line>, n: nat): Announced
    requires n <= |lines|
  {
    if n == 0 then NOTHING
    else if lines[n - 1].Announces? then CollectOne(Held(lines, n - 1), lines[n - 1].reg)
    else Held(lines, n - 1)
  }

  lemma {:induction false} HeldIs(lines: seq<Line>, n: nat)
    requires n <= |lines|
    ensures Held(lines, n) == Collect(RegsIn(lines[..n]))
  {
    if n > 0 {
      HeldIs(lines, n - 1);
      RegsInSnoc(lines, n - 1);
    }
  }

  lemma {:induction false} LaterProviders(sent: seq<Line>, at: nat, n: nat)
    requires at <= n <= |sent|
    requires forall i | at <= i < |sent| && sent[i].Announces? :: IsProvider(sent[i].reg)
    ensures SameButProviders(Held(sent, at), Held(sent, n))
    decreases n
  {
    if at < n {
      LaterProviders(sent, at, n - 1);
      OneMore(Held(sent, at), Held(sent, n - 1), sent[n - 1], Held(sent, n));
    } else {
      SameAtFirst(Held(sent, at));
    }
  }

  lemma OneMore(first: Announced, before: Announced, line: Line, after: Announced)
    requires SameButProviders(first, before) && (line.Announces? ==> IsProvider(line.reg))
    requires after == if line.Announces? then CollectOne(before, line.reg) else before
    ensures SameButProviders(first, after)
  {
    if line.Announces? { SameStays(first, before, line.reg); }
  }

  /** How far the host has read makes no difference if and only if no provider is registered after the reply. */
  lemma ReadAheadIff(evs: seq<Event>, s: Peer)
    requires Reaches(evs, s) && s.reply.Some?
    ensures s.reply.value.at < |s.own.sent|
    ensures SameWhereverRead(s.own.sent, s.reply.value.at) <==> forall i | s.reply.value.at < i < |s.own.sent| :: !s.own.sent[i].Announces?
  {
    RunAnswered(evs, s);
    NoProviderAfterIff(s.own.sent, s.reply.value);
  }

  /** The host holds the same wherever beyond the reply it bridges. */
  predicate SameWhereverRead(sent: seq<Line>, at: nat)
    requires at < |sent|
  {
    forall n | at < n <= |sent| :: Collect(RegsIn(sent[..n])) == Collect(RegsIn(sent[..at]))
  }

  lemma RunAnswered(evs: seq<Event>, s: Peer)
    requires Reaches(evs, s) && s.reply.Some?
    ensures Answered(s.own.sent, s.reply.value)
  {
    RunKeeps(evs, s);
  }

  lemma NoProviderAfterIff(sent: seq<Line>, r: Replied)
    requires Answered(sent, r)
    ensures SameWhereverRead(sent, r.at) <==> forall i | r.at < i < |sent| :: !sent[i].Announces?
  {
    LateRegistrationsIff(sent, r.at);
    forall i | r.at < i < |sent| && sent[i].Announces? ensures !Repeats(Collect(RegsIn(sent[..r.at])), sent[i].reg) {
      LaterLine(sent, r, i);
    }
  }

  /** Bridging what was collected panics if and only if a prompt section has no title: nothing else can lack a name. */
  lemma BridgeableIff(evs: seq<Event>, s: Peer, n: nat)
    requires Reaches(evs, s) && s.reply.Some? && s.reply.value.at < n <= |s.own.sent|
    ensures var sections := s.reply.value.own.listed[PromptSections];
            Acceptable(Collected(s, n)) <==> forall i | 0 <= i < |sections| :: sections[i].name != ""
  {
    RunKeeps(evs, s);
    ReplyMeansCollected(evs, s, n);
    OwnAcceptableIff(Collected(s, n), s.reply.value.own);
  }

  lemma OwnAcceptableIff(a: Announced, own: Own)
    requires IsOwn(a, own) && WellNamed(own)
    ensures Acceptable(a) <==> forall i | 0 <= i < |own.listed[PromptSections]| :: own.listed[PromptSections][i].name != ""
  {
    forall k: TableKind, i | k != StreamProviders && 0 <= i < |a.entries[k]| ensures a.entries[k][i].name != "" {
      NamesInTable(own, a, k, i);
    }
  }

  lemma NamesInTable(own: Own, a: Announced, k: TableKind, i: nat)
    requires IsOwn(a, own) && WellNamed(own) && k != StreamProviders && i < |a.entries[k]|
    ensures a.entries[k][i].name != ""
  {
    assert a.entries[k][i].name in own.tables[k];
  }

  // ----- what bridging then shows -----

  lemma {:induction false} AbsentEntry(k: TableKind, items: seq<Item>, n: string)
    requires forall i | 0 <= i < |items| :: items[i].name != n
    ensures LastEntry(AsEntries(k, items), k, n) == None
  {
    if items != [] {
      var front, last := items[..|items| - 1], items[|items| - 1];
      AbsentEntry(k, front, n);
      AsEntriesSnoc(k, front, last, n);
      assert items == front + [last];
    }
  }

  lemma {:induction false} PresentEntry(k: TableKind, items: seq<Item>, i: nat)
    requires i < |items| && forall j | i < j < |items| :: items[j].name != items[i].name
    ensures LastEntry(AsEntries(k, items), k, items[i].name) == Some(items[i])
  {
    var front, last := items[..|items| - 1], items[|items| - 1];
    AsEntriesSnoc(k, front, last, items[i].name);
    assert items == front + [last];
    if i < |front| { PresentEntry(k, front, i); }
  }

  lemma EnumeratedIs(t: Table, k: TableKind, items: seq<Item>, n: string)
    requires Enumerates(t, items)
    ensures LastEntry(AsEntries(k, items), k, n) == Lookup(t, n)
  {
    if n in t {
      var i :| 0 <= i < |items| && items[i].name == n;
      PresentEntry(k, items, i);
    } else {
      AbsentEntry(k, items, n);
    }
  }
}
