/** A host collects what its extension announces during the handshake and bridges it into the app. */
module Bridge {
  import opened Prelude
  import opened Registry

  type EntryLists = e: map<TableKind, seq<Item>> | forall k: TableKind :: k in e
    witness map k: TableKind | true :: []

  /** What a host has collected from its extension, kind by kind, in order of arrival. */
  datatype Announced = Announced(entries: EntryLists, listed: Lists, compactor: Option<Item>)

  const NOTHING := Announced(map k: TableKind | true :: [], map k: ListKind | true :: [], None)

  function CollectOne(a: Announced, reg: Reg): Announced {
    match reg
    case Entry(k, item) => a.(entries := a.entries[k := a.entries[k] + [item]])
    case Listed(k, item) => a.(listed := a.listed[k := a.listed[k] + [item]])
    case Compact(item) => a.(compactor := Some(item))
  }

  function Collect(regs: seq<Reg>): Announced {
    if regs == [] then NOTHING else CollectOne(Collect(regs[..|regs| - 1]), regs[|regs| - 1])
  }

  // ----- the handshake -----

  /** A line from the extension: a registration, the reply to initialize, or anything else. */
  datatype Line = Announces(reg: Reg) | InitReply | OtherLine

  function RegsIn(lines: seq<Line>): seq<Reg> {
    if lines == [] then []
    else if lines[|lines| - 1].Announces? then RegsIn(lines[..|lines| - 1]) + [lines[|lines| - 1].reg]
    else RegsIn(lines[..|lines| - 1])
  }

  lemma RegsInSnoc(lines: seq<Line>, n: nat)
    requires n < |lines|
    ensures RegsIn(lines[..n + 1]) == if lines[n].Announces? then RegsIn(lines[..n]) + [lines[n].reg] else RegsIn(lines[..n])
    ensures Collect(RegsIn(lines[..n + 1])) ==
            if lines[n].Announces? then CollectOne(Collect(RegsIn(lines[..n])), lines[n].reg) else Collect(RegsIn(lines[..n]))
  {
    assert lines[..n + 1][..n] == lines[..n];
  }

  /** Registering again what is the compactor already; every other registration adds something. */
  predicate Repeats(a: Announced, reg: Reg) { reg.Compact? && a.compactor == Some(reg.item) }

  lemma CollectOneChanges(a: Announced, reg: Reg)
    ensures CollectOne(a, reg) == a <==> Repeats(a, reg)
  {
    match reg
    case Entry(k, item) => assert |CollectOne(a, reg).entries[k]| == |a.entries[k]| + 1;
    case Listed(k, item) => assert |CollectOne(a, reg).listed[k]| == |a.listed[k]| + 1;
    case Compact(item) =>
  }

  /**
   Lines are handled in the order they were written. It makes no difference how far beyond the reply the host has
   read when it bridges, if and only if every registration after the reply repeats the compactor.
   */
  lemma LateRegistrationsIff(lines: seq<Line>, reply: nat)
    requires reply < |lines| && lines[reply] == InitReply
    ensures (forall n | reply < n <= |lines| :: Collect(RegsIn(lines[..n])) == Collect(RegsIn(lines[..reply]))) <==>
            (forall i | reply < i < |lines| && lines[i].Announces? :: Repeats(Collect(RegsIn(lines[..reply])), lines[i].reg))
  {
    if forall i | reply < i < |lines| && lines[i].Announces? :: Repeats(Collect(RegsIn(lines[..reply])), lines[i].reg) {
      forall n | reply < n <= |lines| ensures Collect(RegsIn(lines[..n])) == Collect(RegsIn(lines[..reply])) {
        RepeatsChangeNothing(lines, reply, n);
      }
    } else {
      var i :| reply < i < |lines| && lines[i].Announces? && !Repeats(Collect(RegsIn(lines[..reply])), lines[i].reg);
      RegsInSnoc(lines, i);
      CollectOneChanges(Collect(RegsIn(lines[..reply])), lines[i].reg);
      assert Collect(RegsIn(lines[..i + 1])) != Collect(RegsIn(lines[..reply]))
             || Collect(RegsIn(lines[..i])) != Collect(RegsIn(lines[..reply]));
    }
  }

  lemma {:induction false} RepeatsChangeNothing(lines: seq<Line>, reply: nat, n: nat)
    requires reply < n <= |lines| && lines[reply] == InitReply
    requires forall i | reply < i < |lines| && lines[i].Announces? :: Repeats(Collect(RegsIn(lines[..reply])), lines[i].reg)
    ensures Collect(RegsIn(lines[..n])) == Collect(RegsIn(lines[..reply]))
    decreases n
  {
    RegsInSnoc(lines, n - 1);
    if reply < n - 1 {
      RepeatsChangeNothing(lines, reply, n - 1);
      if lines[n - 1].Announces? { CollectOneChanges(Collect(RegsIn(lines[..reply])), lines[n - 1].reg); }
    }
  }

  // ----- the bridging order -----

  function AsEntries(k: TableKind, items: seq<Item>): seq<Reg> {
    if items == [] then [] else AsEntries(k, items[..|items| - 1]) + [Entry(k, items[|items| - 1])]
  }

  function AsListed(k: ListKind, items: seq<Item>): seq<Reg> {
    if items == [] then [] else AsListed(k, items[..|items| - 1]) + [Listed(k, items[|items| - 1])]
  }

  function AsCompact(c: Option<Item>): seq<Reg> {
    if c.Some? then [Compact(c.value)] else []
  }

  datatype Kind = OfTable(table: TableKind) | OfList(list: ListKind) | OfCompactor

  const ORDER := [OfTable(Tools), OfTable(Commands), OfList(PromptSections), OfList(Interceptors), OfList(EventHandlers),
                  OfTable(Shortcuts), OfList(MessageHooks), OfList(InputTransformers), OfCompactor, OfTable(StreamProviders)]

  function Piece(a: Announced, kind: Kind): seq<Reg> {
    match kind
    case OfTable(k) => AsEntries(k, a.entries[k])
    case OfList(k) => AsListed(k, a.listed[k])
    case OfCompactor => AsCompact(a.compactor)
  }

  function Pieces(a: Announced, kinds: seq<Kind>): seq<Reg> {
    if kinds == [] then [] else Pieces(a, kinds[..|kinds| - 1]) + Piece(a, kinds[|kinds| - 1])
  }

  /** The order in which a host bridges what it collected: kind by kind. */
  function BridgeOrder(a: Announced): seq<Reg> { Pieces(a, ORDER) }

  // ----- bridging kind by kind registers what was announced -----

  lemma {:induction false} EntriesOnly(k: TableKind, items: seq<Item>, k': TableKind, n: string, l: ListKind)
    ensures LastCompact(AsEntries(k, items)) == None && ListedItems(AsEntries(k, items), l) == multiset{}
    ensures k' != k ==> LastEntry(AsEntries(k, items), k', n) == None
  {
    if items != [] {
      EntriesOnly(k, items[..|items| - 1], k', n, l);
      assert AsEntries(k, items)[..|AsEntries(k, items)| - 1] == AsEntries(k, items[..|items| - 1]);
    }
  }

  lemma {:induction false} ListedOnly(k: ListKind, items: seq<Item>, t: TableKind, n: string, l: ListKind)
    ensures LastCompact(AsListed(k, items)) == None && LastEntry(AsListed(k, items), t, n) == None
    ensures l != k ==> ListedItems(AsListed(k, items), l) == multiset{}
  {
    if items != [] {
      ListedOnly(k, items[..|items| - 1], t, n, l);
      assert AsListed(k, items)[..|AsListed(k, items)| - 1] == AsListed(k, items[..|items| - 1]);
    }
  }

  lemma PieceOnly(a: Announced, kind: Kind, k: TableKind, n: string, l: ListKind)
    ensures kind != OfTable(k) ==> LastEntry(Piece(a, kind), k, n) == None
    ensures kind != OfList(l) ==> ListedItems(Piece(a, kind), l) == multiset{}
    ensures LastCompact(Piece(a, kind)) == if kind == OfCompactor then a.compactor else None
  {
    match kind {
      case OfTable(t) => EntriesOnly(t, a.entries[t], k, n, l);
      case OfList(t) => ListedOnly(t, a.listed[t], k, n, l);
      case OfCompactor =>
        if a.compactor.Some? { NothingElse(Compact(a.compactor.value)); }
    }
  }

  ghost predicate Distinct(kinds: seq<Kind>) {
    forall i, j | 0 <= i < j < |kinds| :: kinds[i] != kinds[j]
  }

  lemma {:induction false} PiecesHold(a: Announced, kinds: seq<Kind>, k: TableKind, n: string, l: ListKind)
    requires Distinct(kinds)
    ensures LastEntry(Pieces(a, kinds), k, n) == if OfTable(k) in kinds then LastEntry(AsEntries(k, a.entries[k]), k, n) else None
    ensures ListedItems(Pieces(a, kinds), l) == if OfList(l) in kinds then ListedItems(AsListed(l, a.listed[l]), l) else multiset{}
    ensures LastCompact(Pieces(a, kinds)) == if OfCompactor in kinds then a.compactor else None
  {
    if kinds != [] {
      var front, last := kinds[..|kinds| - 1], kinds[|kinds| - 1];
      PiecesHold(a, front, k, n, l);
      PieceOnly(a, last, k, n, l);
      PiecesSplit(a, front, last, k, n, l);
      LastIsNew(kinds);
    }
  }

  lemma LastIsNew(kinds: seq<Kind>)
    requires Distinct(kinds) && kinds != []
    ensures kinds[|kinds| - 1] !in kinds[..|kinds| - 1]
    ensures forall x :: x in kinds <==> x in kinds[..|kinds| - 1] || x == kinds[|kinds| - 1]
  {
    assert kinds == kinds[..|kinds| - 1] + [kinds[|kinds| - 1]];
  }

  lemma PiecesSplit(a: Announced, front: seq<Kind>, last: Kind, k: TableKind, n: string, l: ListKind)
    ensures var p, q := Pieces(a, front), Piece(a, last);
            && LastEntry(p + q, k, n) == Or(LastEntry(q, k, n), LastEntry(p, k, n))
            && ListedItems(p + q, l) == ListedItems(p, l) + ListedItems(q, l)
            && LastCompact(p + q) == Or(LastCompact(q), LastCompact(p))
  {
    EntryConcat(Pieces(a, front), Piece(a, last), k, n);
    ListedConcat(Pieces(a, front), Piece(a, last), l);
    CompactConcat(Pieces(a, front), Piece(a, last));
  }

  lemma {:induction false} CollectEntries(regs: seq<Reg>, k: TableKind, n: string)
    ensures LastEntry(AsEntries(k, Collect(regs).entries[k]), k, n) == LastEntry(regs, k, n)
  {
    if regs != [] {
      var front, reg := regs[..|regs| - 1], regs[|regs| - 1];
      var before := Collect(front).entries[k];
      CollectEntries(front, k, n);
      if reg.Entry? && reg.table == k { AsEntriesSnoc(k, before, reg.item, n); }
    }
  }

  lemma AsEntriesSnoc(k: TableKind, items: seq<Item>, item: Item, n: string)
    ensures LastEntry(AsEntries(k, items + [item]), k, n) ==
            if item.name == n then Some(item) else LastEntry(AsEntries(k, items), k, n)
  {
    assert (items + [item])[..|items|] == items;
    EntrySnoc(AsEntries(k, items), Entry(k, item), k, n);
    NothingElse(Entry(k, item));
  }

  lemma {:induction false} CollectListed(regs: seq<Reg>, l: ListKind)
    ensures multiset(Collect(regs).listed[l]) == ListedItems(regs, l)
  {
    if regs != [] { CollectListed(regs[..|regs| - 1], l); }
  }

  lemma {:induction false} AsListedItems(k: ListKind, items: seq<Item>)
    ensures ListedItems(AsListed(k, items), k) == multiset(items)
  {
    if items != [] {
      var front, last := items[..|items| - 1], items[|items| - 1];
      AsListedItems(k, front);
      assert items == front + [last];
      ListedSnoc(AsListed(k, front), Listed(k, last), k);
      OneListed(k, last, k);
    }
  }

  lemma {:induction false} CollectCompact(regs: seq<Reg>)
    ensures Collect(regs).compactor == LastCompact(regs)
  {
    if regs != [] { CollectCompact(regs[..|regs| - 1]); }
  }

  /** Bridging kind by kind leaves in every table and list exactly what registering in order of arrival would. */
  lemma OrderDoesNotMatter(regs: seq<Reg>, before: State, after: State)
    ensures Added(before, BridgeOrder(Collect(regs)), after) <==> Added(before, regs, after)
  {
    forall k: TableKind, n: string ensures LastEntry(BridgeOrder(Collect(regs)), k, n) == LastEntry(regs, k, n) {
      BridgeOrderHolds(regs, k, n, Interceptors);
    }
    forall l: ListKind ensures ListedItems(BridgeOrder(Collect(regs)), l) == ListedItems(regs, l) {
      BridgeOrderHolds(regs, Tools, "", l);
    }
    BridgeOrderHolds(regs, Tools, "", Interceptors);
  }

  lemma BridgeOrderHolds(regs: seq<Reg>, k: TableKind, n: string, l: ListKind)
    ensures LastEntry(BridgeOrder(Collect(regs)), k, n) == LastEntry(regs, k, n)
    ensures ListedItems(BridgeOrder(Collect(regs)), l) == ListedItems(regs, l)
    ensures LastCompact(BridgeOrder(Collect(regs))) == LastCompact(regs)
  {
    assert Distinct(ORDER);
    PiecesHold(Collect(regs), ORDER, k, n, l);
    CollectEntries(regs, k, n);
    CollectListed(regs, l);
    AsListedItems(l, Collect(regs).listed[l]);
    CollectCompact(regs);
    KindInOrder(OfTable(k));
    KindInOrder(OfList(l));
    KindInOrder(OfCompactor);
  }

  lemma KindInOrder(kind: Kind)
    ensures kind in ORDER
  {
    match kind {
      case OfTable(k) => assert ORDER[if k == Tools then 0 else if k == Commands then 1 else if k == Shortcuts then 5 else 9] == kind;
      case OfList(k) =>
        assert ORDER[if k == PromptSections then 2 else if k == Interceptors then 3 else if k == EventHandlers then 4
                     else if k == MessageHooks then 6 else 7] == kind;
      case OfCompactor => assert ORDER[8] == kind;
    }
  }

  // ----- bridging adds nothing of its own -----

  lemma {:induction false} EntriesAreItems(k: TableKind, items: seq<Item>, reg: Reg)
    requires reg in AsEntries(k, items)
    ensures reg.Entry? && reg.table == k && reg.item in items
  {
    if items != [] && reg in AsEntries(k, items[..|items| - 1]) { EntriesAreItems(k, items[..|items| - 1], reg); }
  }

  lemma {:induction false} ListedAreItems(k: ListKind, items: seq<Item>, reg: Reg)
    requires reg in AsListed(k, items)
    ensures reg.Listed? && reg.list == k && reg.item in items
  {
    if items != [] && reg in AsListed(k, items[..|items| - 1]) { ListedAreItems(k, items[..|items| - 1], reg); }
  }

  predicate Holds(a: Announced, reg: Reg) {
    match reg
    case Entry(k, item) => item in a.entries[k]
    case Listed(k, item) => item in a.listed[k]
    case Compact(item) => a.compactor == Some(item)
  }

  lemma {:induction false} HeldWasAnnounced(regs: seq<Reg>, reg: Reg)
    requires Holds(Collect(regs), reg)
    ensures reg in regs
  {
    if regs != [] {
      var front, last := regs[..|regs| - 1], regs[|regs| - 1];
      assert regs == front + [last];
      if Holds(Collect(front), reg) { HeldWasAnnounced(front, reg); }
    }
  }

  lemma {:induction false} PiecesAreHeld(a: Announced, kinds: seq<Kind>, reg: Reg)
    requires reg in Pieces(a, kinds)
    ensures Holds(a, reg)
  {
    var front, last := kinds[..|kinds| - 1], kinds[|kinds| - 1];
    if reg in Pieces(a, front) {
      PiecesAreHeld(a, front, reg);
    } else {
      match last
      case OfTable(k) => EntriesAreItems(k, a.entries[k], reg);
      case OfList(k) => ListedAreItems(k, a.listed[k], reg);
      case OfCompactor =>
    }
  }

  lemma BridgedWasAnnounced(regs: seq<Reg>, reg: Reg)
    requires reg in BridgeOrder(Collect(regs))
    ensures reg in regs
  {
    PiecesAreHeld(Collect(regs), ORDER, reg);
    HeldWasAnnounced(regs, reg);
  }

  // ----- the host -----

  ghost predicate Acceptable(a: Announced) {
    && (forall k: TableKind, i | k != StreamProviders && 0 <= i < |a.entries[k]| :: a.entries[k][i].name != "")
    && (forall k: ListKind, i | k != EventHandlers && 0 <= i < |a.listed[k]| :: a.listed[k][i].name != "")
  }

  function Overwrite(t: Table, items: seq<Item>): Table {
    if items == [] then t else Overwrite(t, items[..|items| - 1])[items[|items| - 1].name := items[|items| - 1]]
  }

  lemma {:induction false} OverwriteAdds(t: Table, k: TableKind, items: seq<Item>, n: string)
    ensures Lookup(Overwrite(t, items), n) == Or(LastEntry(AsEntries(k, items), k, n), Lookup(t, n))
  {
    if items != [] {
      var front, last := items[..|items| - 1], items[|items| - 1];
      OverwriteAdds(t, k, front, n);
      AsEntriesSnoc(k, front, last, n);
      assert items == front + [last];
    }
  }

  lemma EntriesAdded(s: State, k: TableKind, items: seq<Item>)
    ensures Added(s, AsEntries(k, items), s.(tables := s.tables[k := Overwrite(s.tables[k], items)]))
  {
    forall t: TableKind, n: string
      ensures Lookup(s.tables[k := Overwrite(s.tables[k], items)][t], n) ==
              Or(LastEntry(AsEntries(k, items), t, n), Lookup(s.tables[t], n))
    {
      OverwriteAdds(s.tables[k], k, items, n);
      EntriesOnly(k, items, t, n, Interceptors);
    }
    forall l: ListKind ensures ListedItems(AsEntries(k, items), l) == multiset{} { EntriesOnly(k, items, k, "", l); }
    EntriesOnly(k, items, k, "", Interceptors);
  }

  /** Items were appended and sorted into list k. */
  ghost predicate Merged(before: Lists, k: ListKind, items: seq<Item>, after: Lists) {
    && after == before[k := after[k]] && multiset(after[k]) == multiset(before[k]) + multiset(items)
    && (SortedBy(k, before[k]) ==> SortedBy(k, after[k]))
  }

  lemma MergedCounts(before: Lists, k: ListKind, items: seq<Item>, after: Lists, l: ListKind)
    requires Merged(before, k, items, after)
    ensures multiset(after[l]) == multiset(before[l]) + ListedItems(AsListed(k, items), l)
  {
    ListedOnly(k, items, Tools, "", l);
    AsListedItems(k, items);
  }

  lemma MergedSorted(before: Lists, k: ListKind, items: seq<Item>, after: Lists)
    requires Merged(before, k, items, after) && AllSorted(before)
    ensures AllSorted(after)
  {
    forall l: ListKind ensures SortedBy(l, after[l]) { assert SortedBy(l, before[l]); }
  }

  lemma MergedMore(before: Lists, k: ListKind, items: seq<Item>, mid: Lists, item: Item, after: Lists)
    requires Merged(before, k, items, mid) && after == mid[k := after[k]]
    requires SortedBy(k, after[k]) && multiset(after[k]) == multiset(mid[k]) + multiset{item}
    ensures Merged(before, k, items + [item], after)
  {
    assert mid[k := after[k]] == before[k := after[k]];
  }

  lemma ListedAdded(s: State, k: ListKind, items: seq<Item>, after: Lists)
    requires Merged(s.lists, k, items, after)
    ensures Added(s, AsListed(k, items), s.(lists := after))
  {
    forall t: TableKind, n: string ensures LastEntry(AsListed(k, items), t, n) == None { ListedOnly(k, items, t, n, k); }
    forall l: ListKind ensures multiset(after[l]) == multiset(s.lists[l]) + ListedItems(AsListed(k, items), l) {
      MergedCounts(s.lists, k, items, after, l);
    }
    if AllSorted(s.lists) { MergedSorted(s.lists, k, items, after); }
    ListedOnly(k, items, Tools, "", k);
  }

  /** What bridging one kind does to the app. */
  ghost predicate KindBridged(before: State, a: Announced, kind: Kind, after: State) {
    match kind
    case OfTable(k) => after == before.(tables := before.tables[k := Overwrite(before.tables[k], a.entries[k])])
    case OfList(k) => after == before.(lists := after.lists) && Merged(before.lists, k, a.listed[k], after.lists)
    case OfCompactor => after == before.(compactor := Or(a.compactor, before.compactor))
  }

  lemma KindAdds(before: State, a: Announced, kind: Kind, after: State)
    requires KindBridged(before, a, kind, after)
    ensures Added(before, Piece(a, kind), after)
  {
    match kind {
      case OfTable(k) => EntriesAdded(before, k, a.entries[k]);
      case OfList(k) => ListedAdded(before, k, a.listed[k], after.lists);
      case OfCompactor => if a.compactor.Some? { AddedCompact(before, a.compactor.value); }
    }
  }

  function EntryMarks(k: TableKind, items: seq<Item>): seq<Mark> {
    if items == [] then [] else EntryMarks(k, items[..|items| - 1]) + [EntryMark(k, items[|items| - 1].name)]
  }

  function ListMarks(k: ListKind, items: seq<Item>): seq<Mark> {
    if items == [] then [] else ListMarks(k, items[..|items| - 1]) + [ListMark(k, items[|items| - 1].name)]
  }

  function PieceMarks(a: Announced, kind: Kind): seq<Mark> {
    match kind
    case OfTable(k) => EntryMarks(k, a.entries[k])
    case OfList(k) => ListMarks(k, a.listed[k])
    case OfCompactor => []
  }

  lemma {:induction false} MarksConcat(a: seq<Reg>, b: seq<Reg>)
    ensures Marks(a + b) == Marks(a) + Marks(b)
  {
    if b == [] {
      assert a + b == a;
    } else {
      MarksConcat(a, b[..|b| - 1]);
      assert (a + b)[..|a + b| - 1] == a + b[..|b| - 1];
    }
  }

  lemma {:induction false} EntryMarksAre(k: TableKind, items: seq<Item>)
    ensures Marks(AsEntries(k, items)) == EntryMarks(k, items)
  {
    if items != [] {
      var front, last := items[..|items| - 1], items[|items| - 1];
      EntryMarksAre(k, front);
      assert AsEntries(k, items)[..|AsEntries(k, items)| - 1] == AsEntries(k, front);
    }
  }

  lemma {:induction false} ListMarksAre(k: ListKind, items: seq<Item>)
    ensures Marks(AsListed(k, items)) == ListMarks(k, items)
  {
    if items != [] {
      var front, last := items[..|items| - 1], items[|items| - 1];
      ListMarksAre(k, front);
      assert AsListed(k, items)[..|AsListed(k, items)| - 1] == AsListed(k, front);
    }
  }

  lemma PieceMarksAre(a: Announced, kind: Kind)
    ensures Marks(Piece(a, kind)) == PieceMarks(a, kind)
  {
    match kind {
      case OfTable(k) => EntryMarksAre(k, a.entries[k]);
      case OfList(k) => ListMarksAre(k, a.listed[k]);
      case OfCompactor =>
        if a.compactor.Some? { assert [Compact(a.compactor.value)][..0] == []; }
    }
  }

  class Host {
    const name: string
    var entries: EntryLists
    var listed: Lists
    var compactor: Option<Item>

    constructor (name: string)
      ensures this.name == name && Got() == NOTHING
    {
      this.name := name;
      entries, listed, compactor := NOTHING.entries, NOTHING.listed, None;
    }

    ghost function Got(): Announced
      reads this
    {
      Announced(entries, listed, compactor)
    }

    method HandleNotification(reg: Reg)
      modifies this
      ensures Got() == CollectOne(old(Got()), reg)
    {
      match reg {
        case Entry(k, item) => entries := entries[k := entries[k] + [item]];
        case Listed(k, item) => listed := listed[k := listed[k] + [item]];
        case Compact(item) => compactor := Some(item);
      }
    }

    method BridgeEntries(app: App, k: TableKind, marks: seq<Mark>) returns (out: seq<Mark>)
      requires k != StreamProviders ==> forall i | 0 <= i < |entries[k]| :: entries[k][i].name != ""
      modifies app`tables
      ensures app.tables == old(app.tables)[k := Overwrite(old(app.tables)[k], entries[k])]
      ensures out == marks + EntryMarks(k, entries[k])
    {
      var items := entries[k];
      ghost var before := app.tables;
      out := marks;
      EntriesStart(before, k, items, marks);
      for i := 0 to |items|
        invariant app.tables == before[k := Overwrite(before[k], items[..i])]
        invariant out == marks + EntryMarks(k, items[..i])
      {
        EntriesNext(before, k, items, i);
        EntryMarksNext(k, items, i, marks);
        app.RegisterEntry(k, items[i]);
        out := out + [EntryMark(k, items[i].name)];
      }
      assert items[..|items|] == items;
    }

    method BridgeListed(app: App, k: ListKind, marks: seq<Mark>) returns (out: seq<Mark>)
      requires k != EventHandlers ==> forall i | 0 <= i < |listed[k]| :: listed[k][i].name != ""
      modifies app`lists
      ensures Merged(old(app.lists), k, listed[k], app.lists)
      ensures out == marks + ListMarks(k, listed[k])
    {
      var items := listed[k];
      ghost var before := app.lists;
      out := marks;
      ListedStart(before, k, items, marks);
      for i := 0 to |items|
        invariant Merged(before, k, items[..i], app.lists)
        invariant out == marks + ListMarks(k, items[..i])
      {
        ghost var mid := app.lists;
        app.RegisterListed(k, items[i]);
        ListedNext(before, k, items, i, mid, app.lists);
        ListMarksNext(k, items, i, marks);
        out := out + [ListMark(k, items[i].name)];
      }
      assert items[..|items|] == items;
    }

    /** One kind of registrations, in the order they arrived. */
    method BridgeKind(app: App, kind: Kind, marks: seq<Mark>) returns (out: seq<Mark>)
      requires Acceptable(Got())
      modifies app`tables, app`lists, app`compactor
      ensures KindBridged(old(app.Now()), Got(), kind, app.Now())
      ensures out == marks + PieceMarks(Got(), kind)
    {
      match kind {
        case OfTable(k) => out := BridgeEntries(app, k, marks);
        case OfList(k) => out := BridgeListed(app, k, marks);
        case OfCompactor =>
          out := marks;
          if compactor.Some? { app.RegisterCompactor(compactor.value); }
      }
    }

    method BridgeKinds(app: App, kinds: seq<Kind>) returns (marks: seq<Mark>)
      requires Acceptable(Got())
      modifies app`tables, app`lists, app`compactor
      ensures KindsBridged(old(app.Now()), Got(), kinds, app.Now())
      ensures marks == KindMarks(Got(), kinds)
    {
      ghost var base, a := app.Now(), Got();
      marks := [];
      for i := 0 to |kinds|
        invariant KindsBridged(base, a, kinds[..i], app.Now())
        invariant marks == KindMarks(a, kinds[..i])
      {
        ghost var before := app.Now();
        marks := BridgeKind(app, kinds[i], marks);
        KindsNext(base, a, kinds, i, before, app.Now());
      }
      assert kinds[..|kinds|] == kinds;
    }

    method BridgeAll(app: App) returns (marks: seq<Mark>)
      requires Acceptable(Got())
      modifies app`tables, app`lists, app`compactor
      ensures Added(old(app.Now()), BridgeOrder(Got()), app.Now())
      ensures marks == Marks(BridgeOrder(Got()))
    {
      marks := BridgeKinds(app, ORDER);
      KindsAdd(old(app.Now()), Got(), ORDER, app.Now());
      KindMarksAre(Got(), ORDER);
    }

    /** Everything collected goes into the app, kind by kind, then one info entry naming it all. */
    method Bridge(app: App) returns (ghost mid: State)
      requires Acceptable(Got())
      modifies app
      ensures Added(old(app.Now()), BridgeOrder(Got()), mid)
      ensures app.Now() == mid.(infos := mid.infos + [InfoOf(name, BridgeOrder(Got()))])
    {
      var marks := BridgeAll(app);
      mid := app.Now();
      BridgedCompactor(Got());
      app.RegisterExtInfo(ExtInfo(name, marks, if compactor.Some? then compactor.value.name else ""));
    }
  }

  lemma EntriesStart(before: Tables, k: TableKind, items: seq<Item>, marks: seq<Mark>)
    ensures before[k := Overwrite(before[k], items[..0])] == before && marks + EntryMarks(k, items[..0]) == marks
  {}

  lemma EntriesNext(before: Tables, k: TableKind, items: seq<Item>, i: nat)
    requires i < |items|
    ensures var now := before[k := Overwrite(before[k], items[..i])];
            before[k := Overwrite(before[k], items[..i + 1])] == now[k := now[k][items[i].name := items[i]]]
  {
    assert items[..i + 1][..i] == items[..i];
  }

  lemma EntryMarksNext(k: TableKind, items: seq<Item>, i: nat, marks: seq<Mark>)
    requires i < |items|
    ensures marks + EntryMarks(k, items[..i + 1]) == marks + EntryMarks(k, items[..i]) + [EntryMark(k, items[i].name)]
  {
    assert items[..i + 1][..i] == items[..i];
  }

  lemma ListMarksNext(k: ListKind, items: seq<Item>, i: nat, marks: seq<Mark>)
    requires i < |items|
    ensures marks + ListMarks(k, items[..i + 1]) == marks + ListMarks(k, items[..i]) + [ListMark(k, items[i].name)]
  {
    assert items[..i + 1][..i] == items[..i];
  }

  lemma ListedStart(before: Lists, k: ListKind, items: seq<Item>, marks: seq<Mark>)
    ensures Merged(before, k, items[..0], before) && marks + ListMarks(k, items[..0]) == marks
  {
    assert before == before[k := before[k]];
  }

  lemma ListedNext(before: Lists, k: ListKind, items: seq<Item>, i: nat, mid: Lists, after: Lists)
    requires i < |items| && Merged(before, k, items[..i], mid) && after == mid[k := after[k]]
    requires SortedBy(k, after[k]) && multiset(after[k]) == multiset(mid[k]) + multiset{items[i]}
    ensures Merged(before, k, items[..i + 1], after)
  {
    assert items[..i + 1] == items[..i] + [items[i]];
    MergedMore(before, k, items[..i], mid, items[i], after);
  }

  /** The kinds were bridged one after the other. */
  ghost predicate KindsBridged(base: State, a: Announced, kinds: seq<Kind>, now: State) {
    if kinds == [] then now == base
    else exists mid {:trigger KindsBridged(base, a, kinds[..|kinds| - 1], mid)} ::
           KindsBridged(base, a, kinds[..|kinds| - 1], mid) && KindBridged(mid, a, kinds[|kinds| - 1], now)
  }

  function KindMarks(a: Announced, kinds: seq<Kind>): seq<Mark> {
    if kinds == [] then [] else KindMarks(a, kinds[..|kinds| - 1]) + PieceMarks(a, kinds[|kinds| - 1])
  }

  lemma KindsNext(base: State, a: Announced, kinds: seq<Kind>, i: nat, before: State, after: State)
    requires i < |kinds| && KindsBridged(base, a, kinds[..i], before) && KindBridged(before, a, kinds[i], after)
    ensures KindsBridged(base, a, kinds[..i + 1], after)
    ensures KindMarks(a, kinds[..i + 1]) == KindMarks(a, kinds[..i]) + PieceMarks(a, kinds[i])
  {
    assert kinds[..i + 1][..i] == kinds[..i];
  }

  lemma {:induction false} KindsAdd(base: State, a: Announced, kinds: seq<Kind>, now: State)
    requires KindsBridged(base, a, kinds, now)
    ensures Added(base, Pieces(a, kinds), now)
  {
    if kinds != [] {
      var front, last := kinds[..|kinds| - 1], kinds[|kinds| - 1];
      var mid :| KindsBridged(base, a, front, mid) && KindBridged(mid, a, last, now);
      KindsAdd(base, a, front, mid);
      KindAdds(mid, a, last, now);
      AddedConcat(base, Pieces(a, front), mid, Piece(a, last), now);
    }
  }

  lemma {:induction false} KindMarksAre(a: Announced, kinds: seq<Kind>)
    ensures KindMarks(a, kinds) == Marks(Pieces(a, kinds))
  {
    if kinds != [] {
      var front, last := kinds[..|kinds| - 1], kinds[|kinds| - 1];
      KindMarksAre(a, front);
      MarksConcat(Pieces(a, front), Piece(a, last));
      PieceMarksAre(a, last);
    }
  }

  lemma BridgedCompactor(a: Announced)
    ensures CompactName(BridgeOrder(a)) == if a.compactor.Some? then a.compactor.value.name else ""
  {
    assert Distinct(ORDER);
    PiecesHold(a, ORDER, Tools, "", Interceptors);
    KindInOrder(OfCompactor);
  }
}
