/**
 The application's registry of what extensions provide: name-keyed tables,
 priority-sorted lists and one compactor. A host's registrations are bridged in
 one by one; unregistering undoes them from the names recorded in the info entry.
 */
module Registry {
  import opened Prelude
  import opened Sorting

  datatype TableKind = Tools | Commands | Shortcuts | StreamProviders
  datatype ListKind = Interceptors | EventHandlers | MessageHooks | InputTransformers | PromptSections

  /** One registered thing; `host` is the process that serves it. Titles, keys and API names are names here. */
  datatype Item = Item(name: string, priority: int, host: nat)

  datatype Reg = Entry(table: TableKind, item: Item) | Listed(list: ListKind, item: Item) | Compact(item: Item)

  datatype Mark = EntryMark(table: TableKind, name: string) | ListMark(list: ListKind, name: string)

  /** What an extension registered, by name. */
  datatype ExtInfo = ExtInfo(name: string, marks: seq<Mark>, compactor: string)

  type Table = map<string, Item>
  type Tables = t: map<TableKind, Table> | forall k: TableKind :: k in t
    witness map k: TableKind | true :: map[]
  type Lists = l: map<ListKind, seq<Item>> | forall k: ListKind :: k in l
    witness map k: ListKind | true :: []

  datatype State = State(tables: Tables, lists: Lists, compactor: Option<Item>, infos: seq<ExtInfo>)

  /** Interceptors run highest priority first; every other list is in ascending order. */
  predicate InOrder(k: ListKind, x: Item, y: Item) {
    if k == Interceptors then y.priority <= x.priority else x.priority <= y.priority
  }

  ghost predicate SortedBy(k: ListKind, xs: seq<Item>) {
    forall i, j | 0 <= i < j < |xs| :: InOrder(k, xs[i], xs[j])
  }

  ghost predicate AllSorted(lists: Lists) {
    forall k: ListKind :: SortedBy(k, lists[k])
  }

  // ----- what a list of registrations amounts to -----

  function Lookup(t: Table, n: string): Option<Item> {
    if n in t then Some(t[n]) else None
  }

  /** The entry that name n ends up with in table k: the latest one wins. */
  function LastEntry(regs: seq<Reg>, k: TableKind, n: string): Option<Item> {
    if regs == [] then None
    else if regs[|regs| - 1].Entry? && regs[|regs| - 1].table == k && regs[|regs| - 1].item.name == n then
      Some(regs[|regs| - 1].item)
    else LastEntry(regs[..|regs| - 1], k, n)
  }

  function ListedItems(regs: seq<Reg>, k: ListKind): multiset<Item> {
    if regs == [] then multiset{}
    else if regs[|regs| - 1].Listed? && regs[|regs| - 1].list == k then
      ListedItems(regs[..|regs| - 1], k) + multiset{regs[|regs| - 1].item}
    else ListedItems(regs[..|regs| - 1], k)
  }

  function LastCompact(regs: seq<Reg>): Option<Item> {
    if regs == [] then None
    else if regs[|regs| - 1].Compact? then Some(regs[|regs| - 1].item)
    else LastCompact(regs[..|regs| - 1])
  }

  function Or<T>(a: Option<T>, b: Option<T>): Option<T> { if a.Some? then a else b }

  function Marks(regs: seq<Reg>): seq<Mark> {
    if regs == [] then []
    else match regs[|regs| - 1]
      case Entry(k, item) => Marks(regs[..|regs| - 1]) + [EntryMark(k, item.name)]
      case Listed(k, item) => Marks(regs[..|regs| - 1]) + [ListMark(k, item.name)]
      case Compact(_) => Marks(regs[..|regs| - 1])
  }

  function CompactName(regs: seq<Reg>): string {
    match LastCompact(regs)
    case Some(c) => c.name
    case None => ""
  }

  function InfoOf(name: string, regs: seq<Reg>): ExtInfo {
    ExtInfo(name, Marks(regs), CompactName(regs))
  }

  ghost predicate TablesAdded(before: Tables, regs: seq<Reg>, after: Tables) {
    forall k: TableKind, n: string :: Lookup(after[k], n) == Or(LastEntry(regs, k, n), Lookup(before[k], n))
  }

  /** Equal priorities may come out in any order. */
  ghost predicate ListsAdded(before: Lists, regs: seq<Reg>, after: Lists) {
    && (forall k: ListKind :: multiset(after[k]) == multiset(before[k]) + ListedItems(regs, k))
    && (AllSorted(before) ==> AllSorted(after))
  }

  /** The registry before and after some registrations. */
  ghost predicate Added(before: State, regs: seq<Reg>, after: State) {
    && TablesAdded(before.tables, regs, after.tables)
    && ListsAdded(before.lists, regs, after.lists)
    && after.compactor == Or(LastCompact(regs), before.compactor)
    && after.infos == before.infos
  }

  lemma EntrySnoc(regs: seq<Reg>, reg: Reg, k: TableKind, n: string)
    ensures LastEntry(regs + [reg], k, n) == Or(LastEntry([reg], k, n), LastEntry(regs, k, n))
  {
    assert (regs + [reg])[..|regs|] == regs && [reg][..0] == [];
    assert LastEntry([], k, n) == None;
  }

  lemma ListedSnoc(regs: seq<Reg>, reg: Reg, k: ListKind)
    ensures ListedItems(regs + [reg], k) == ListedItems(regs, k) + ListedItems([reg], k)
  {
    assert (regs + [reg])[..|regs|] == regs && [reg][..0] == [];
    assert ListedItems([], k) == multiset{};
  }

  lemma CompactSnoc(regs: seq<Reg>, reg: Reg)
    ensures LastCompact(regs + [reg]) == Or(LastCompact([reg]), LastCompact(regs))
  {
    assert (regs + [reg])[..|regs|] == regs && [reg][..0] == [];
    assert LastCompact([]) == None;
  }

  lemma {:induction false} EntryConcat(a: seq<Reg>, b: seq<Reg>, k: TableKind, n: string)
    ensures LastEntry(a + b, k, n) == Or(LastEntry(b, k, n), LastEntry(a, k, n))
  {
    if b == [] {
      assert a + b == a;
    } else {
      EntryConcat(a, b[..|b| - 1], k, n);
      assert (a + b)[..|a + b| - 1] == a + b[..|b| - 1];
    }
  }

  lemma {:induction false} ListedConcat(a: seq<Reg>, b: seq<Reg>, k: ListKind)
    ensures ListedItems(a + b, k) == ListedItems(a, k) + ListedItems(b, k)
  {
    if b == [] {
      assert a + b == a;
    } else {
      ListedConcat(a, b[..|b| - 1], k);
      assert (a + b)[..|a + b| - 1] == a + b[..|b| - 1];
    }
  }

  lemma {:induction false} CompactConcat(a: seq<Reg>, b: seq<Reg>)
    ensures LastCompact(a + b) == Or(LastCompact(b), LastCompact(a))
  {
    if b == [] {
      assert a + b == a;
    } else {
      CompactConcat(a, b[..|b| - 1]);
      assert (a + b)[..|a + b| - 1] == a + b[..|b| - 1];
    }
  }

  lemma AddedConcat(a: State, first: seq<Reg>, b: State, second: seq<Reg>, c: State)
    requires Added(a, first, b) && Added(b, second, c)
    ensures Added(a, first + second, c)
  {
    forall k: TableKind, n: string
      ensures Lookup(c.tables[k], n) == Or(LastEntry(first + second, k, n), Lookup(a.tables[k], n))
    {
      EntryConcat(first, second, k, n);
    }
    forall k: ListKind ensures multiset(c.lists[k]) == multiset(a.lists[k]) + ListedItems(first + second, k) {
      ListedConcat(first, second, k);
    }
    CompactConcat(first, second);
  }

  // ----- unregistering -----

  function FirstInfo(infos: seq<ExtInfo>, name: string): Option<ExtInfo> {
    if infos == [] then None
    else if infos[0].name == name then Some(infos[0])
    else FirstInfo(infos[1..], name)
  }

  function Unnamed(xs: seq<Item>, k: ListKind, marks: seq<Mark>): seq<Item> {
    if xs == [] then []
    else if ListMark(k, xs[|xs| - 1].name) in marks then Unnamed(xs[..|xs| - 1], k, marks)
    else Unnamed(xs[..|xs| - 1], k, marks) + [xs[|xs| - 1]]
  }

  function OtherInfos(infos: seq<ExtInfo>, name: string): seq<ExtInfo> {
    if infos == [] then []
    else if infos[|infos| - 1].name == name then OtherInfos(infos[..|infos| - 1], name)
    else OtherInfos(infos[..|infos| - 1], name) + [infos[|infos| - 1]]
  }

  ghost predicate TablesRemoved(before: Tables, marks: seq<Mark>, after: Tables) {
    forall k: TableKind, n: string ::
      Lookup(after[k], n) == if EntryMark(k, n) in marks then None else Lookup(before[k], n)
  }

  ghost predicate ListsRemoved(before: Lists, marks: seq<Mark>, after: Lists) {
    forall k: ListKind :: after[k] == Unnamed(before[k], k, marks)
  }

  /** The registry before and after unregistering the extension whose info entry is given. */
  ghost predicate Removed(before: State, info: ExtInfo, after: State) {
    && TablesRemoved(before.tables, info.marks, after.tables)
    && ListsRemoved(before.lists, info.marks, after.lists)
    && after.compactor == (if before.compactor.Some? && info.compactor != "" && before.compactor.value.name == info.compactor
                           then None else before.compactor)
    && after.infos == OtherInfos(before.infos, info.name)
  }

  ghost predicate Unregistered(before: State, name: string, after: State) {
    match FirstInfo(before.infos, name)
    case None => after == before
    case Some(info) => Removed(before, info, after)
  }

  lemma {:induction false} UnnamedCounts(xs: seq<Item>, k: ListKind, marks: seq<Mark>, x: Item)
    ensures multiset(Unnamed(xs, k, marks))[x] == if ListMark(k, x.name) in marks then 0 else multiset(xs)[x]
  {
    if xs != [] {
      UnnamedCounts(xs[..|xs| - 1], k, marks, x);
      assert xs == xs[..|xs| - 1] + [xs[|xs| - 1]];
    }
  }

  lemma {:induction false} UnnamedSorted(xs: seq<Item>, k: ListKind, marks: seq<Mark>)
    requires SortedBy(k, xs)
    ensures SortedBy(k, Unnamed(xs, k, marks))
    ensures forall x | x in Unnamed(xs, k, marks) :: x in xs
  {
    if xs != [] {
      var front, last := xs[..|xs| - 1], xs[|xs| - 1];
      UnnamedSorted(front, k, marks);
      var kept := Unnamed(front, k, marks);
      assert xs == front + [last];
      forall i | 0 <= i < |kept| ensures InOrder(k, kept[i], last) { assert kept[i] in front; }
    }
  }

  lemma {:induction false} FirstInfoSnoc(infos: seq<ExtInfo>, info: ExtInfo)
    ensures FirstInfo(infos + [info], info.name) == Or(FirstInfo(infos, info.name), Some(info))
  {
    if infos != [] && infos[0].name != info.name {
      FirstInfoSnoc(infos[1..], info);
      assert (infos + [info])[1..] == infos[1..] + [info];
    }
  }

  /** Exactly the entries of that name are dropped. */
  lemma {:induction false} OtherInfosMeaning(infos: seq<ExtInfo>, name: string)
    ensures forall i | i in OtherInfos(infos, name) :: i.name != name
    ensures (forall i | i in infos :: i.name != name) ==> OtherInfos(infos, name) == infos
  {
    if infos != [] {
      var front, last := infos[..|infos| - 1], infos[|infos| - 1];
      OtherInfosMeaning(front, name);
      assert infos == front + [last];
    }
  }

  lemma {:induction false} FirstInfoExists(infos: seq<ExtInfo>, name: string)
    ensures FirstInfo(infos, name) == None ==> forall i | i in infos :: i.name != name
    ensures FirstInfo(infos, name).Some? ==> FirstInfo(infos, name).value.name == name && FirstInfo(infos, name).value in infos
  {
    if infos != [] {
      FirstInfoExists(infos[1..], name);
      assert infos == [infos[0]] + infos[1..];
    }
  }

  // ----- marks cover exactly what was registered -----

  lemma {:induction false} MarksCover(regs: seq<Reg>, k: TableKind, n: string)
    ensures EntryMark(k, n) in Marks(regs) <==> LastEntry(regs, k, n).Some?
    ensures LastEntry(regs, k, n).Some? ==> LastEntry(regs, k, n).value.name == n
  {
    if regs != [] { MarksCover(regs[..|regs| - 1], k, n); }
  }

  lemma {:induction false} MarksCoverListed(regs: seq<Reg>, k: ListKind, x: Item)
    ensures ListedItems(regs, k)[x] > 0 ==> ListMark(k, x.name) in Marks(regs)
  {
    if regs != [] { MarksCoverListed(regs[..|regs| - 1], k, x); }
  }

  // ----- the round trip -----

  /** No registered name was in its table before. */
  ghost predicate EntriesDisjoint(base: Tables, regs: seq<Reg>) {
    forall k: TableKind, n: string | EntryMark(k, n) in Marks(regs) :: n !in base[k]
  }

  /** No registered name was in its list before. */
  ghost predicate ListsDisjoint(base: Lists, regs: seq<Reg>) {
    forall k: ListKind, x: Item | x in base[k] :: ListMark(k, x.name) !in Marks(regs)
  }

  /** A named compactor takes an empty place; a nameless one is never taken out again. */
  predicate NoCompetingCompactor(base: Option<Item>, regs: seq<Reg>) {
    match LastCompact(regs)
    case None => true
    case Some(c) => if c.name == "" then base == Some(c) else base == None
  }

  ghost predicate SameTables(a: Tables, b: Tables) {
    forall k: TableKind, n: string :: Lookup(a[k], n) == Lookup(b[k], n)
  }

  ghost predicate SameLists(a: Lists, b: Lists) {
    forall k: ListKind :: multiset(a[k]) == multiset(b[k])
  }

  /** The same registrations; where priorities are equal the order within a list may differ. */
  ghost predicate Restored(base: State, after: State) {
    && SameTables(after.tables, base.tables) && SameLists(after.lists, base.lists)
    && after.compactor == base.compactor && after.infos == base.infos
  }

  /**
   Unregistering an extension right after bridging it restores the registry if and only if its
   names were free, no other compactor was in place, and no info entry of that name existed.
   */
  lemma RoundTripIff(base: State, name: string, regs: seq<Reg>, bridged: State, after: State)
    requires Added(base, regs, bridged)
    requires Unregistered(bridged.(infos := bridged.infos + [InfoOf(name, regs)]), name, after)
    ensures Restored(base, after) <==>
            && EntriesDisjoint(base.tables, regs) && ListsDisjoint(base.lists, regs)
            && NoCompetingCompactor(base.compactor, regs) && FirstInfo(base.infos, name) == None
  {
    var info, infos := InfoOf(name, regs), bridged.infos + [InfoOf(name, regs)];
    FirstInfoSnoc(bridged.infos, info);
    FirstInfoExists(base.infos, name);
    OtherInfosMeaning(infos, name);
    if FirstInfo(base.infos, name) == None {
      OtherInfosMeaning(base.infos, name);
      assert infos[..|base.infos|] == base.infos;
      RoundTripTables(base.tables, regs, bridged.tables, after.tables);
      RoundTripLists(base.lists, regs, bridged.lists, after.lists);
    }
  }

  lemma RoundTripTables(base: Tables, regs: seq<Reg>, bridged: Tables, after: Tables)
    requires TablesAdded(base, regs, bridged) && TablesRemoved(bridged, Marks(regs), after)
    ensures SameTables(after, base) <==> EntriesDisjoint(base, regs)
  {
    forall k: TableKind, n: string
      ensures Lookup(after[k], n) == Lookup(base[k], n) <==> (EntryMark(k, n) in Marks(regs) ==> n !in base[k])
    {
      MarksCover(regs, k, n);
    }
  }

  lemma RoundTripCounts(base: Lists, regs: seq<Reg>, bridged: Lists, after: Lists, k: ListKind, x: Item)
    requires ListsAdded(base, regs, bridged) && ListsRemoved(bridged, Marks(regs), after)
    ensures multiset(after[k])[x] == if ListMark(k, x.name) in Marks(regs) then 0 else multiset(base[k])[x]
  {
    UnnamedCounts(bridged[k], k, Marks(regs), x);
    MarksCoverListed(regs, k, x);
  }

  lemma RoundTripLists(base: Lists, regs: seq<Reg>, bridged: Lists, after: Lists)
    requires ListsAdded(base, regs, bridged) && ListsRemoved(bridged, Marks(regs), after)
    ensures SameLists(after, base) <==> ListsDisjoint(base, regs)
  {
    if ListsDisjoint(base, regs) {
      forall k: ListKind ensures multiset(after[k]) == multiset(base[k]) {
        forall x: Item ensures multiset(after[k])[x] == multiset(base[k])[x] {
          RoundTripCounts(base, regs, bridged, after, k, x);
          if x in multiset(base[k]) { assert x in base[k]; }
        }
      }
    } else {
      var k: ListKind, x: Item :| x in base[k] && ListMark(k, x.name) in Marks(regs);
      RoundTripCounts(base, regs, bridged, after, k, x);
      assert x in multiset(base[k]);
    }
  }

  lemma RemovedKeepsSorted(before: Lists, marks: seq<Mark>, after: Lists)
    requires AllSorted(before) && ListsRemoved(before, marks, after)
    ensures AllSorted(after)
  {
    forall k: ListKind ensures SortedBy(k, after[k]) { UnnamedSorted(before[k], k, marks); }
  }

  // ----- the app -----

  class App {
    var tables: Tables
    var lists: Lists
    var compactor: Option<Item>
    var extInfos: seq<ExtInfo>

    ghost function Now(): State
      reads this
    {
      State(tables, lists, compactor, extInfos)
    }

    /** Registering a tool, command or shortcut panics on an empty name. */
    method RegisterEntry(k: TableKind, item: Item)
      requires k != StreamProviders ==> item.name != ""
      modifies `tables
      ensures tables == old(tables)[k := old(tables)[k][item.name := item]]
    {
      tables := tables[k := tables[k][item.name := item]];
    }

    /** Append and sort by priority; all but event handlers must have a name. Equal priorities may come out in any order. */
    method RegisterListed(k: ListKind, item: Item)
      requires k != EventHandlers ==> item.name != ""
      modifies `lists
      ensures lists == old(lists)[k := lists[k]]
      ensures SortedBy(k, lists[k]) && multiset(lists[k]) == multiset(old(lists)[k]) + multiset{item}
      ensures forall i, j | 0 <= i < j < |lists[k]| ::
                if k == Interceptors then lists[k][i].priority >= lists[k][j].priority else lists[k][i].priority <= lists[k][j].priority
    {
      var sorted := SortItems(k, lists[k] + [item]);
      lists := lists[k := sorted];
    }

    /** Only one compactor is active; the last one registered wins. */
    method RegisterCompactor(c: Item)
      modifies `compactor
      ensures compactor == Some(c)
    {
      compactor := Some(c);
    }

    method RegisterExtInfo(info: ExtInfo)
      modifies `extInfos
      ensures extInfos == old(extInfos) + [info]
    {
      extInfos := extInfos + [info];
    }

    method UnregisterExtension(name: string)
      modifies this
      ensures Unregistered(old(Now()), name, Now())
    {
      var found := FirstInfo(extInfos, name);
      if found == None { return; }
      var info := found.value;
      FirstInfoExists(extInfos, name);
      DeleteEntries(info.marks);
      DeleteListed(info.marks);
      if compactor.Some? && info.compactor != "" && compactor.value.name == info.compactor {
        compactor := None;
      }
      extInfos := OtherInfos(extInfos, name);
    }

    method DeleteEntries(marks: seq<Mark>)
      modifies `tables
      ensures TablesRemoved(old(tables), marks, tables)
    {
      for i := 0 to |marks|
        invariant TablesRemoved(old(tables), marks[..i], tables)
      {
        assert marks[..i + 1] == marks[..i] + [marks[i]];
        match marks[i] {
          case EntryMark(k, n) => tables := tables[k := tables[k] - {n}];
          case ListMark(_, _) =>
        }
      }
      assert marks[..|marks|] == marks;
    }

    method DeleteListed(marks: seq<Mark>)
      modifies `lists
      ensures ListsRemoved(old(lists), marks, lists)
    {
      var before := lists;
      lists := lists[Interceptors := Unnamed(lists[Interceptors], Interceptors, marks)];
      lists := lists[EventHandlers := Unnamed(lists[EventHandlers], EventHandlers, marks)];
      lists := lists[MessageHooks := Unnamed(lists[MessageHooks], MessageHooks, marks)];
      lists := lists[InputTransformers := Unnamed(lists[InputTransformers], InputTransformers, marks)];
      lists := lists[PromptSections := Unnamed(lists[PromptSections], PromptSections, marks)];
      forall k: ListKind ensures lists[k] == Unnamed(before[k], k, marks) {
        match k {
          case Interceptors => case EventHandlers => case MessageHooks => case InputTransformers => case PromptSections =>
        }
      }
    }
  }

  /** A registration of one kind says nothing about the others. */
  lemma NothingElse(reg: Reg)
    ensures forall k: TableKind, n: string ::
              LastEntry([reg], k, n) == if reg.Entry? && reg.table == k && reg.item.name == n then Some(reg.item) else None
    ensures forall k: ListKind ::
              ListedItems([reg], k) == if reg.Listed? && reg.list == k then multiset{reg.item} else multiset{}
    ensures LastCompact([reg]) == if reg.Compact? then Some(reg.item) else None
  {
    assert [reg][..0] == [];
    assert LastCompact([]) == None;
    assert forall k: TableKind, n: string :: LastEntry([], k, n) == None;
    assert forall k: ListKind :: ListedItems([], k) == multiset{};
  }

  method SortItems(k: ListKind, items: seq<Item>) returns (sorted: seq<Item>)
    ensures SortedBy(k, sorted) && multiset(sorted) == multiset(items)
  {
    var le := (x, y) => InOrder(k, x, y);
    sorted := SortFunc(items, le);
    assert forall i, j | 0 <= i < j < |sorted| :: le(sorted[i], sorted[j]);
  }

  // ----- each Register call adds one registration -----

  lemma TablesKept(tables: Tables, reg: Reg)
    requires !reg.Entry?
    ensures TablesAdded(tables, [reg], tables)
  {
    NothingElse(reg);
  }

  lemma ListsKept(lists: Lists, reg: Reg)
    requires !reg.Listed?
    ensures ListsAdded(lists, [reg], lists)
  {
    NothingElse(reg);
  }

  lemma OneListed(k: ListKind, item: Item, l: ListKind)
    ensures ListedItems([Listed(k, item)], l) == if l == k then multiset{item} else multiset{}
    ensures LastCompact([Listed(k, item)]) == None
  {
    NothingElse(Listed(k, item));
  }

  lemma CountsAdded(lists: Lists, k: ListKind, item: Item, after: Lists)
    requires after == lists[k := after[k]] && multiset(after[k]) == multiset(lists[k]) + multiset{item}
    ensures forall l: ListKind :: multiset(after[l]) == multiset(lists[l]) + ListedItems([Listed(k, item)], l)
  {
    forall l: ListKind ensures multiset(after[l]) == multiset(lists[l]) + ListedItems([Listed(k, item)], l) {
      OneListed(k, item, l);
    }
  }

  lemma SortedAdded(lists: Lists, k: ListKind, after: Lists)
    requires after == lists[k := after[k]] && SortedBy(k, after[k]) && AllSorted(lists)
    ensures AllSorted(after)
  {
    forall l: ListKind ensures SortedBy(l, after[l]) { assert SortedBy(l, lists[l]); }
  }

  lemma AddedListed(s: State, k: ListKind, item: Item, after: Lists)
    requires after == s.lists[k := after[k]]
    requires SortedBy(k, after[k]) && multiset(after[k]) == multiset(s.lists[k]) + multiset{item}
    ensures Added(s, [Listed(k, item)], s.(lists := after))
  {
    TablesKept(s.tables, Listed(k, item));
    CountsAdded(s.lists, k, item, after);
    OneListed(k, item, k);
    if AllSorted(s.lists) { SortedAdded(s.lists, k, after); }
  }

  lemma AddedEntry(s: State, k: TableKind, item: Item)
    ensures Added(s, [Entry(k, item)], s.(tables := s.tables[k := s.tables[k][item.name := item]]))
  {
    NothingElse(Entry(k, item));
    ListsKept(s.lists, Entry(k, item));
  }

  lemma AddedCompact(s: State, item: Item)
    ensures Added(s, [Compact(item)], s.(compactor := Some(item)))
  {
    NothingElse(Compact(item));
    TablesKept(s.tables, Compact(item));
    ListsKept(s.lists, Compact(item));
  }
}
