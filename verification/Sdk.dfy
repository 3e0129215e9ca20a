/**
 The extension's side of the handshake: registrations are kept in the SDK's fields until the host asks to
 initialize, then sent kind by kind, and only then does the reply follow. Providers alone are announced at once.
 */
module Sdk {
  import opened Prelude
  import opened Registry
  import opened Bridge

  /** What an extension has registered so far: by key the latest wins, the lists grow. And what it has written. */
  datatype Own = Own(tables: Tables, listed: Lists, compactor: Option<Item>, sent: seq<Line>)

  /** A call into the SDK by the extension's author: a registration, or anything that writes another line. */
  datatype Call = Register(reg: Reg) | WriteOther

  /** Registering without a name panics, except for prompt sections and providers. */
  predicate Named(reg: Reg) {
    match reg
    case Entry(k, item) => k == StreamProviders || item.name != ""
    case Listed(k, item) => k == PromptSections || item.name != ""
    case Compact(item) => item.name != ""
  }

  predicate Proper(c: Call) { c.Register? ==> Named(c.reg) }

  /** The calls that do not panic: everything with a name, and prompt sections, providers and other lines in any case. */
  lemma ProperIff(c: Call)
    ensures Proper(c) <==>
            c.WriteOther? || c.reg.item.name != "" || (c.reg.Listed? && c.reg.list == PromptSections)
            || (c.reg.Entry? && c.reg.table == StreamProviders)
  {}

  function AfterCall(s: Own, c: Call): Own {
    match c
    case WriteOther => s.(sent := s.sent + [OtherLine])
    case Register(Entry(k, item)) =>
      if k == StreamProviders then s.(sent := s.sent + [Announces(c.reg)])
      else s.(tables := s.tables[k := s.tables[k][item.name := item]])
    case Register(Listed(k, item)) => s.(listed := s.listed[k := s.listed[k] + [item]])
    case Register(Compact(item)) => s.(compactor := Some(item))
  }

  function AfterCalls(s: Own, cs: seq<Call>): Own {
    if cs == [] then s else AfterCall(AfterCalls(s, cs[..|cs| - 1]), cs[|cs| - 1])
  }

  function AsLines(regs: seq<Reg>): seq<Line> {
    if regs == [] then [] else AsLines(regs[..|regs| - 1]) + [Announces(regs[|regs| - 1])]
  }

  /** The orders in which the three maps were iterated. */
  datatype Orders = Orders(tools: seq<Item>, commands: seq<Item>, shortcuts: seq<Item>)

  /** The items are the entries of the table, each once, in some order. */
  ghost predicate Enumerates(t: Table, items: seq<Item>) {
    && (forall i, j | 0 <= i < j < |items| :: items[i].name != items[j].name)
    && (forall i | 0 <= i < |items| :: items[i].name in t && t[items[i].name] == items[i])
    && (forall n | n in t :: exists i :: 0 <= i < |items| && items[i].name == n)
  }

  ghost predicate OrdersOf(s: Own, o: Orders) {
    Enumerates(s.tables[Tools], o.tools) && Enumerates(s.tables[Commands], o.commands) && Enumerates(s.tables[Shortcuts], o.shortcuts)
  }

  /** What the registrations amount to when the maps are iterated in these orders; providers are not among them. */
  function Holdings(s: Own, o: Orders): Announced {
    Announced(NOTHING.entries[Tools := o.tools][Commands := o.commands][Shortcuts := o.shortcuts], s.listed, s.compactor)
  }

  /** Registrations go out in the order in which the host will bridge them, but without the providers. */
  function KindAt(i: nat): Kind {
    match i
    case 0 => OfTable(Tools)
    case 1 => OfTable(Commands)
    case 2 => OfList(PromptSections)
    case 3 => OfList(Interceptors)
    case 4 => OfList(EventHandlers)
    case 5 => OfTable(Shortcuts)
    case 6 => OfList(MessageHooks)
    case 7 => OfList(InputTransformers)
    case _ => OfCompactor
  }

  function Sending(n: nat): (kinds: seq<Kind>)
    ensures |kinds| == n && forall i | 0 <= i < n :: kinds[i] == KindAt(i)
  {
    seq(n, i requires 0 <= i => KindAt(i))
  }

  function Announcement(s: Own, o: Orders): seq<Reg> { Pieces(Holdings(s, o), Sending(9)) }

  /** The kinds in the order they are sent. */
  lemma SendingOrder()
    ensures Sending(9) == [OfTable(Tools), OfTable(Commands), OfList(PromptSections), OfList(Interceptors), OfList(EventHandlers),
                           OfTable(Shortcuts), OfList(MessageHooks), OfList(InputTransformers), OfCompactor]
  {}

  function OnInitialize(s: Own, hook: seq<Call>, o: Orders): Own {
    var t := AfterCalls(s, hook);
    t.(sent := t.sent + AsLines(Announcement(t, o)) + [InitReply])
  }

  // ----- the SDK object -----

  lemma AsLinesConcat(xs: seq<Reg>, ys: seq<Reg>)
    ensures AsLines(xs + ys) == AsLines(xs) + AsLines(ys)
  {
    if ys == [] {
      assert xs + ys == xs;
    } else {
      AsLinesConcat(xs, ys[..|ys| - 1]);
      assert (xs + ys)[..|xs + ys| - 1] == xs + ys[..|ys| - 1];
    }
  }

  class Extension {
    var tables: Tables          // tools, commands and shortcuts, each a map
    var listed: Lists
    var compactor: Option<Item>
    var sent: seq<Line>

    ghost function Now(): Own
      reads this
    {
      Own(tables, listed, compactor, sent)
    }

    method SendNotification(reg: Reg)
      modifies `sent
      ensures sent == old(sent) + [Announces(reg)]
    {
      sent := sent + [Announces(reg)];
    }

    method RegisterOne(reg: Reg)
      requires Named(reg)
      modifies this
      ensures Now() == AfterCall(old(Now()), Register(reg))
    {
      match reg {
        case Entry(k, item) =>
          if k == StreamProviders { SendNotification(reg); } else { tables := tables[k := tables[k][item.name := item]]; }
        case Listed(k, item) => listed := listed[k := listed[k] + [item]];
        case Compact(item) => compactor := Some(item);
      }
    }

    /** The OnInit hook, as the calls it makes. */
    method RunHook(hook: seq<Call>)
      requires forall i | 0 <= i < |hook| :: Proper(hook[i])
      modifies this
      ensures Now() == AfterCalls(old(Now()), hook)
    {
      ghost var start := Now();
      for i := 0 to |hook|
        invariant Now() == AfterCalls(start, hook[..i])
      {
        assert hook[..i + 1][..i] == hook[..i];
        match hook[i] {
          case Register(reg) => RegisterOne(reg);
          case WriteOther => sent := sent + [OtherLine];
        }
      }
      assert hook[..|hook|] == hook;
    }

    /** The order in which iterating a map yields its entries: every entry once, in any order. */
    method IterationOrder(t: Table) returns (items: seq<Item>)
      requires forall n | n in t :: t[n].name == n
      ensures Enumerates(t, items)
    {
      var todo := t.Keys;
      items := [];
      while todo != {}
        invariant todo <= t.Keys && Enumerates(t - todo, items)
      {
        var n :| n in todo;
        EnumerateNext(t, todo, items, n);
        items := items + [t[n]];
        todo := todo - {n};
      }
      assert t - {} == t;
    }

    method SendEntries(k: TableKind, items: seq<Item>, ghost before: seq<Line>, ghost h: Announced, ghost i: nat)
      requires KindAt(i) == OfTable(k) && h.entries[k] == items && sent == Stage(before, h, i)
      modifies `sent
      ensures sent == Stage(before, h, i + 1)
    {
      ghost var start := sent;
      NextStage(before, h, i, OfTable(k));
      for j := 0 to |items|
        invariant sent == start + AsLines(AsEntries(k, items[..j]))
      {
        EntryLineNext(k, items, j);
        SendNotification(Entry(k, items[j]));
      }
      assert items[..|items|] == items;
    }

    method SendListed(k: ListKind, ghost before: seq<Line>, ghost h: Announced, ghost i: nat)
      requires KindAt(i) == OfList(k) && h.listed == listed && sent == Stage(before, h, i)
      modifies `sent
      ensures sent == Stage(before, h, i + 1)
    {
      var items := listed[k];
      ghost var start := sent;
      NextStage(before, h, i, OfList(k));
      for j := 0 to |items|
        invariant sent == start + AsLines(AsListed(k, items[..j]))
      {
        ListedLineNext(k, items, j);
        SendNotification(Listed(k, items[j]));
      }
      assert items[..|items|] == items;
    }

    method SendCompactor(ghost before: seq<Line>, ghost h: Announced, ghost i: nat)
      requires KindAt(i) == OfCompactor && h.compactor == compactor && sent == Stage(before, h, i)
      modifies `sent
      ensures sent == Stage(before, h, i + 1)
    {
      NextStage(before, h, i, OfCompactor);
      if compactor.Some? {
        OneLine(Compact(compactor.value));
        SendNotification(Compact(compactor.value));
      }
    }

    method SendRegistrations() returns (o: Orders)
      requires KeysAreNames(tables)
      modifies `sent
      ensures OrdersOf(old(Now()), o) && sent == old(sent) + AsLines(Announcement(old(Now()), o))
    {
      var tools := IterationOrder(tables[Tools]);
      var commands := IterationOrder(tables[Commands]);
      var shortcuts := IterationOrder(tables[Shortcuts]);
      o := Orders(tools, commands, shortcuts);
      ghost var before, h := sent, Holdings(Now(), o);
      SendFirstKinds(o, before, h);
      SendOtherKinds(o, before, h);
      AfterIs(before, h, Sending(9));
    }

    method SendFirstKinds(o: Orders, ghost before: seq<Line>, ghost h: Announced)
      requires h.entries[Tools] == o.tools && h.entries[Commands] == o.commands
      requires h.listed == listed && sent == Stage(before, h, 0)
      modifies `sent
      ensures sent == Stage(before, h, 5)
    {
      ghost var i: nat := 0;
      SendEntries(Tools, o.tools, before, h, i);
      i := i + 1;
      SendEntries(Commands, o.commands, before, h, i);
      i := i + 1;
      SendListed(PromptSections, before, h, i);
      i := i + 1;
      SendListed(Interceptors, before, h, i);
      i := i + 1;
      SendListed(EventHandlers, before, h, i);
    }

    method SendOtherKinds(o: Orders, ghost before: seq<Line>, ghost h: Announced)
      requires h.entries[Shortcuts] == o.shortcuts
      requires h.listed == listed && h.compactor == compactor && sent == Stage(before, h, 5)
      modifies `sent
      ensures sent == Stage(before, h, 9)
    {
      ghost var i: nat := 5;
      SendEntries(Shortcuts, o.shortcuts, before, h, i);
      i := i + 1;
      SendListed(MessageHooks, before, h, i);
      i := i + 1;
      SendListed(InputTransformers, before, h, i);
      i := i + 1;
      SendCompactor(before, h, i);
    }

    /** The reply is written after the last registration. */
    method HandleInitialize(hook: seq<Call>) returns (o: Orders)
      requires KeysAreNames(tables) && forall i | 0 <= i < |hook| :: Proper(hook[i])
      modifies this
      ensures OrdersOf(AfterCalls(old(Now()), hook), o) && Now() == OnInitialize(old(Now()), hook, o)
    {
      CallsKeepNames(Now(), hook);
      RunHook(hook);
      o := SendRegistrations();
      sent := sent + [InitReply];
    }
  }

  lemma OneLine(reg: Reg)
    ensures AsLines([reg]) == [Announces(reg)]
  {
    assert [reg][..0] == [];
  }

  lemma EntryLineNext(k: TableKind, items: seq<Item>, i: nat)
    requires i < |items|
    ensures AsLines(AsEntries(k, items[..i + 1])) == AsLines(AsEntries(k, items[..i])) + [Announces(Entry(k, items[i]))]
  {
    assert items[..i + 1][..i] == items[..i];
    AsLinesConcat(AsEntries(k, items[..i]), [Entry(k, items[i])]);
    OneLine(Entry(k, items[i]));
  }

  lemma ListedLineNext(k: ListKind, items: seq<Item>, i: nat)
    requires i < |items|
    ensures AsLines(AsListed(k, items[..i + 1])) == AsLines(AsListed(k, items[..i])) + [Announces(Listed(k, items[i]))]
  {
    assert items[..i + 1][..i] == items[..i];
    AsLinesConcat(AsListed(k, items[..i]), [Listed(k, items[i])]);
    OneLine(Listed(k, items[i]));
  }

  lemma EnumerateNext(t: Table, todo: set<string>, items: seq<Item>, n: string)
    requires n in todo && todo <= t.Keys && t[n].name == n && Enumerates(t - todo, items)
    ensures Enumerates(t - (todo - {n}), items + [t[n]])
  {
    var more, rest := items + [t[n]], t - (todo - {n});
    forall m | m in rest ensures exists i :: 0 <= i < |more| && more[i].name == m {
      if m == n {
        assert more[|items|].name == n;
      } else {
        assert m in t - todo;
        var i :| 0 <= i < |items| && items[i].name == m;
        assert more[i].name == m;
      }
    }
  }

  /** What has been written when these kinds are out. */
  function After(before: seq<Line>, h: Announced, kinds: seq<Kind>): seq<Line> {
    if kinds == [] then before
    else After(before, h, kinds[..|kinds| - 1]) + AsLines(Piece(h, kinds[|kinds| - 1]))
  }

  function Stage(before: seq<Line>, h: Announced, i: nat): seq<Line> { After(before, h, Sending(i)) }

  lemma NextStage(before: seq<Line>, h: Announced, i: nat, kind: Kind)
    requires KindAt(i) == kind
    ensures Stage(before, h, i + 1) == Stage(before, h, i) + AsLines(Piece(h, kind))
  {
    assert Sending(i + 1)[..i] == Sending(i);
  }

  lemma PiecesNext(h: Announced, i: nat)
    ensures Pieces(h, Sending(i + 1)) == Pieces(h, Sending(i)) + Piece(h, KindAt(i))
  {
    assert Sending(i + 1)[..i] == Sending(i);
  }

  lemma Regroup<T>(a: seq<T>, b: seq<T>, c: seq<T>)
    ensures (a + b) + c == a + (b + c)
  {}

  lemma {:induction false} AfterIs(before: seq<Line>, h: Announced, kinds: seq<Kind>)
    ensures After(before, h, kinds) == before + AsLines(Pieces(h, kinds))
  {
    if kinds != [] {
      var front, last := kinds[..|kinds| - 1], kinds[|kinds| - 1];
      AfterIs(before, h, front);
      AsLinesConcat(Pieces(h, front), Piece(h, last));
      Regroup(before, AsLines(Pieces(h, front)), AsLines(Piece(h, last)));
    }
  }

  ghost predicate KeysAreNames(tables: Tables) {
    forall k: TableKind, n | n in tables[k] :: tables[k][n].name == n
  }

  lemma {:induction false} CallsKeepNames(s: Own, cs: seq<Call>)
    requires KeysAreNames(s.tables)
    ensures KeysAreNames(AfterCalls(s, cs).tables)
  {
    if cs != [] { CallsKeepNames(s, cs[..|cs| - 1]); }
  }
}
