/**
 The supervisors: one per extension, all sharing one registry. Each starts its
 extension, bridges it registration by registration, watches it, and on a crash or
 a reload unregisters it and starts it again. The steps of different supervisors
 interleave in any order.
 */
module Supervisor {
  import opened Prelude
  import opened Registry
  import Bridge

  const MAX_RESTARTS: nat := 5
  const MAX_BACKOFF: nat := 16

  /** Who owns each name: an extension, or somebody else. Names are disjoint across extensions. */
  datatype Ownership = Ownership(entry: (TableKind, string) -> string, listed: (ListKind, string) -> string, compactor: string)

  /** `watching`: on its return the watch loop had an extension it had bridged. */
  datatype Ending = NeverStarted | GaveUp | Stopped(watching: bool)

  datatype Phase =
    | NotStarted
    | Bridging(todo: seq<Reg>)      // host set, registrations still to be made
    | Watching                      // live and bridged
    | Unregistering(crash: bool, bridged: bool)   // `bridged`: it was live and bridged until now
    | Waiting                       // sleeping before a restart
    | Restarting
    | NoHost                        // a restart failed; waiting for a reload
    | Ended(how: Ending)

  /**
   One supervisor. `heard` are the lines its latest host had read when it was bridged, `announced` what it collected
   from them, in bridging order, and `registered` and `informed` what the app holds of it. `alive`: a process of the
   extension is running, its host not closed. `stopped`: Stop was called.
   */
  datatype Sup = Sup(phase: Phase, host: nat, heard: seq<Bridge.Line>, announced: seq<Reg>, registered: seq<Reg>, informed: bool,
                     failures: nat, backoff: nat, alive: bool, stopped: bool)

  /** What a host that has read these lines bridges. */
  function Bridged(heard: seq<Bridge.Line>): seq<Reg> { Bridge.BridgeOrder(Bridge.Collect(Bridge.RegsIn(heard))) }

  datatype System = System(app: State, sups: map<string, Sup>, nextHost: nat)

  datatype Action =
    | Spawn
    | Started(heard: seq<Bridge.Line>)   // its reply to initialize was read, and its host is set
    | StartFailed                        // no process, or none that replied, which is then killed
    | Register(sorted: Lists)   // the next registration; for a list, how it came out sorted
    | Inform
    | Exit                      // the host closes
    | Crash(stable: bool)       // the watch loop notices; `stable`: after at least 30 seconds
    | Reload
    | Unregister
    | Timer
    | Stop
    | Leave                     // the watch loop notices that it is stopped

  predicate Starting(p: Phase) { p == NotStarted || p == Restarting }

  /** The host is set, and is the host of the latest process. */
  predicate HostSet(p: Phase) { p.Bridging? || p == Watching }

  /** The extension announces only names it owns, served by its own process. */
  ghost predicate WellNamed(own: Ownership, e: string, host: nat, regs: seq<Reg>) {
    forall i | 0 <= i < |regs| ::
      regs[i].item.host == host &&
      match regs[i]
      case Entry(k, item) => own.entry(k, item.name) == e
      case Listed(k, item) => own.listed(k, item.name) == e
      case Compact(item) => own.compactor == e && item.name != ""
  }

  ghost predicate CanRegister(lists: Lists, reg: Reg, sorted: Lists) {
    match reg
    case Listed(k, item) =>
      sorted == lists[k := sorted[k]] && SortedBy(k, sorted[k]) && multiset(sorted[k]) == multiset(lists[k]) + multiset{item}
    case _ => sorted == lists
  }

  ghost predicate Enabled(own: Ownership, s: System, e: string, a: Action) {
    e in s.sups &&
    var sup := s.sups[e];
    match a
    case Spawn => Starting(sup.phase) && !sup.alive
    case Started(heard) =>
      && Starting(sup.phase) && sup.alive
      && Bridge.InitReply in heard && WellNamed(own, e, s.nextHost, Bridge.RegsIn(heard))
    case StartFailed => Starting(sup.phase)
    case Register(sorted) => sup.phase.Bridging? && sup.phase.todo != [] && CanRegister(s.app.lists, sup.phase.todo[0], sorted)
    case Inform => sup.phase == Bridging([])
    case Exit => sup.alive && !Starting(sup.phase)
    case Crash(_) => sup.phase == Watching && !sup.alive && !sup.stopped
    case Reload => sup.phase == Watching || sup.phase == NoHost
    case Unregister => sup.phase.Unregistering?
    case Timer => sup.phase == Waiting
    case Stop => !sup.stopped
    case Leave => sup.stopped && (sup.phase == Watching || sup.phase == NoHost || sup.phase == Waiting)
  }

  function Min(a: nat, b: nat): nat { if a <= b then a else b }

  function OnCrash(sup: Sup, stable: bool): Sup {
    var failures := (if stable then 0 else sup.failures) + 1;
    var backoff := if stable then 1 else sup.backoff;
    sup.(failures := failures, backoff := backoff,
         phase := if failures > MAX_RESTARTS then Ended(GaveUp) else Unregistering(true, true))
  }

  /** A reload of a live host kills it and resets the counters; one that finds no host does not. */
  function OnReload(sup: Sup): Sup {
    if sup.phase == Watching then sup.(failures := 0, backoff := 1, phase := Unregistering(false, true), alive := false)
    else sup.(phase := Unregistering(false, false))
  }

  function NextSup(sup: Sup, host: nat, a: Action): Sup
    requires a.Register? ==> sup.phase.Bridging? && sup.phase.todo != []
    requires a.Unregister? ==> sup.phase.Unregistering?
  {
    match a
    case Spawn => sup.(alive := true)
    case Started(heard) =>
      sup.(phase := Bridging(Bridged(heard)), host := host, heard := heard, announced := Bridged(heard),
           registered := [], informed := false)
    case StartFailed => sup.(phase := if sup.phase == NotStarted then Ended(NeverStarted) else NoHost, alive := false)
    case Register(_) => sup.(phase := Bridging(sup.phase.todo[1..]), registered := sup.registered + [sup.phase.todo[0]])
    case Inform => sup.(phase := Watching, informed := true)
    case Exit => sup.(alive := false)
    case Crash(stable) => OnCrash(sup, stable)
    case Reload => OnReload(sup)
    case Unregister => sup.(phase := if sup.phase.crash then Waiting else Restarting, registered := [], informed := false)
    case Timer => sup.(phase := Restarting, backoff := Min(sup.backoff * 2, MAX_BACKOFF))
    case Stop => sup.(stopped := true, alive := sup.alive && !HostSet(sup.phase))
    case Leave => sup.(phase := Ended(Stopped(sup.phase == Watching)))
  }

  function RegisterOne(app: State, reg: Reg, sorted: Lists): State {
    match reg
    case Entry(k, item) => app.(tables := app.tables[k := app.tables[k][item.name := item]])
    case Listed(_, _) => app.(lists := sorted)
    case Compact(item) => app.(compactor := Some(item))
  }

  function KeepEntries(t: Table, k: TableKind, marks: seq<Mark>): Table {
    map n | n in t && EntryMark(k, n) !in marks :: t[n]
  }

  function UnregisterOne(app: State, e: string): State {
    match FirstInfo(app.infos, e)
    case None => app
    case Some(info) =>
      State(map k: TableKind | true :: KeepEntries(app.tables[k], k, info.marks),
            map k: ListKind | true :: Unnamed(app.lists[k], k, info.marks),
            if app.compactor.Some? && info.compactor != "" && app.compactor.value.name == info.compactor then None else app.compactor,
            OtherInfos(app.infos, e))
  }

  /** What the supervisor does to the registry is what the app's own unregistering does. */
  lemma UnregisterOneIs(app: State, e: string)
    ensures Unregistered(app, e, UnregisterOne(app, e))
  {
    FirstInfoExists(app.infos, e);
  }

  /** Each registration step adds exactly that registration. */
  lemma RegisterOneAdds(app: State, reg: Reg, sorted: Lists)
    requires CanRegister(app.lists, reg, sorted)
    ensures Added(app, [reg], RegisterOne(app, reg, sorted))
  {
    match reg {
      case Entry(k, item) => AddedEntry(app, k, item);
      case Listed(k, item) => AddedListed(app, k, item, sorted);
      case Compact(item) => AddedCompact(app, item);
    }
  }

  function NextApp(app: State, e: string, sup: Sup, a: Action): State
    requires a.Register? ==> sup.phase.Bridging? && sup.phase.todo != []
  {
    match a
    case Register(sorted) => RegisterOne(app, sup.phase.todo[0], sorted)
    case Inform => app.(infos := app.infos + [InfoOf(e, sup.registered)])
    case Unregister => UnregisterOne(app, e)
    case _ => app
  }

  function Next(s: System, e: string, a: Action): System
    requires e in s.sups
    requires a.Register? ==> s.sups[e].phase.Bridging? && s.sups[e].phase.todo != []
    requires a.Unregister? ==> s.sups[e].phase.Unregistering?
  {
    System(NextApp(s.app, e, s.sups[e], a), s.sups[e := NextSup(s.sups[e], s.nextHost, a)],
           if a.Started? then s.nextHost + 1 else s.nextHost)
  }

  // ----- the counters -----

  function Pow2(n: nat): nat { if n == 0 then 1 else 2 * Pow2(n - 1) }

  /** The wait before the restart that follows n failures in a row. */
  function Delay(n: nat): nat { Min(Pow2(n), MAX_BACKOFF) }

  /**
   At the loop head at most five failures are counted and the backoff is min(2^failures, 16) seconds;
   between a crash and its restart the backoff still lags one failure behind.
   */
  ghost predicate CountersOk(sup: Sup) {
    match sup.phase
    case Unregistering(true, _) => 1 <= sup.failures <= MAX_RESTARTS && sup.backoff == Delay(sup.failures - 1)
    case Waiting => 1 <= sup.failures <= MAX_RESTARTS && sup.backoff == Delay(sup.failures - 1)
    case Ended(GaveUp) => sup.failures == MAX_RESTARTS + 1
    case Ended(_) => sup.failures <= MAX_RESTARTS
    case _ => sup.failures <= MAX_RESTARTS && sup.backoff == Delay(sup.failures)
  }

  lemma DelayDoubles(n: nat)
    ensures Delay(n + 1) == Min(Delay(n) * 2, MAX_BACKOFF)
  {}

  lemma CountersKept(own: Ownership, s: System, e: string, a: Action)
    requires Enabled(own, s, e, a) && CountersOk(s.sups[e])
    ensures CountersOk(NextSup(s.sups[e], s.nextHost, a))
  {
    var sup := s.sups[e];
    match a {
      case Timer => DelayDoubles(sup.failures - 1);
      case Crash(_) =>
      case _ =>
    }
  }

  /** Where a process can be running: while it is started, while its host is set, and after a watch loop that was stopped. */
  predicate AliveOk(sup: Sup) {
    && (sup.alive ==> Starting(sup.phase) || HostSet(sup.phase) || sup.phase == Ended(Stopped(true)))
    && (sup.phase.Ended? && sup.phase.how.Stopped? ==> sup.stopped)
  }

  lemma AliveKept(own: Ownership, s: System, e: string, a: Action)
    requires Enabled(own, s, e, a) && AliveOk(s.sups[e])
    ensures AliveOk(NextSup(s.sups[e], s.nextHost, a))
  {
    match a {
      case Crash(_) =>
      case _ =>
    }
  }

  // ----- what the registry holds of each extension -----

  /** Phases in which the app holds everything the extension announced, and its info entry. */
  predicate Whole(p: Phase) {
    p == Watching || (p.Unregistering? && p.bridged) || p == Ended(GaveUp) || p == Ended(Stopped(true))
  }

  ghost predicate SupOk(own: Ownership, e: string, sup: Sup) {
    && WellNamed(own, e, sup.host, sup.announced)
    && (sup.heard != [] ==> sup.announced == Bridged(sup.heard))
    && (sup.phase.Bridging? || Whole(sup.phase) ==> sup.heard != [])
    && Holds(sup)
  }

  /** In each phase, what the app holds of the extension. */
  predicate Holds(sup: Sup) {
    if sup.phase.Bridging? then sup.registered + sup.phase.todo == sup.announced && !sup.informed
    else if Whole(sup.phase) then sup.registered == sup.announced && sup.informed
    else sup.registered == [] && !sup.informed
  }

  /** Bridging registers nothing that was not announced. */
  lemma WellNamedBridged(own: Ownership, e: string, host: nat, regs: seq<Reg>)
    requires WellNamed(own, e, host, regs)
    ensures WellNamed(own, e, host, Bridge.BridgeOrder(Bridge.Collect(regs)))
  {
    var order := Bridge.BridgeOrder(Bridge.Collect(regs));
    forall i | 0 <= i < |order| ensures exists j :: 0 <= j < |regs| && regs[j] == order[i] {
      assert order[i] in order;
      Bridge.BridgedWasAnnounced(regs, order[i]);
    }
  }

  lemma SupKept(own: Ownership, s: System, e: string, a: Action)
    requires Enabled(own, s, e, a) && SupOk(own, e, s.sups[e])
    ensures SupOk(own, e, NextSup(s.sups[e], s.nextHost, a))
  {
    var sup := s.sups[e];
    match a {
      case Started(heard) => WellNamedBridged(own, e, s.nextHost, Bridge.RegsIn(heard));
      case Register(_) =>
        var todo := sup.phase.todo;
        assert sup.registered + [todo[0]] + todo[1..] == sup.registered + todo;
      case Inform => assert sup.registered + [] == sup.registered;
      case _ =>
        QuietHolds(own, s, e, a);
        SameAnnounced(own, e, sup, NextSup(sup, s.nextHost, a));
    }
  }

  lemma SameAnnounced(own: Ownership, e: string, sup: Sup, next: Sup)
    requires SupOk(own, e, sup) && Holds(next)
    requires next.host == sup.host && next.announced == sup.announced && next.heard == sup.heard
    requires next.phase.Bridging? || Whole(next.phase) ==> sup.phase.Bridging? || Whole(sup.phase)
    ensures SupOk(own, e, next)
  {}

  lemma QuietHolds(own: Ownership, s: System, e: string, a: Action)
    requires Enabled(own, s, e, a) && Holds(s.sups[e]) && !a.Started? && !a.Register? && !a.Inform?
    ensures var sup, next := s.sups[e], NextSup(s.sups[e], s.nextHost, a);
            && Holds(next) && next.host == sup.host && next.announced == sup.announced && next.heard == sup.heard
            && (next.phase.Bridging? || Whole(next.phase) ==> sup.phase.Bridging? || Whole(sup.phase))
  {
    match a {
      case Crash(_) =>
      case _ =>
    }
  }

  function Registered(sups: map<string, Sup>, e: string): seq<Reg> {
    if e in sups then sups[e].registered else []
  }

  /** Every table entry: the owner's latest registration of that name, or whatever was there before. */
  ghost predicate TablesOk(own: Ownership, base: Tables, sups: map<string, Sup>, tables: Tables) {
    forall k: TableKind, n: string ::
      Lookup(tables[k], n) == if own.entry(k, n) in sups then LastEntry(Registered(sups, own.entry(k, n)), k, n)
                              else Lookup(base[k], n)
  }

  /** How often the registry holds item x in list k, according to what was registered. */
  function ExpectedCount(own: Ownership, base: Lists, sups: map<string, Sup>, k: ListKind, x: Item): nat {
    if own.listed(k, x.name) in sups then ListedItems(Registered(sups, own.listed(k, x.name)), k)[x] else multiset(base[k])[x]
  }

  /** Every list: each item as often as its owner registered it, or as often as it was there before. */
  ghost predicate ListsOk(own: Ownership, base: Lists, sups: map<string, Sup>, lists: Lists) {
    forall k: ListKind, x: Item :: multiset(lists[k])[x] == ExpectedCount(own, base, sups, k, x)
  }

  ghost predicate CompactorOk(own: Ownership, base: Option<Item>, sups: map<string, Sup>, compactor: Option<Item>) {
    compactor == if own.compactor in sups then LastCompact(Registered(sups, own.compactor)) else base
  }

  function InfosNamed(infos: seq<ExtInfo>, n: string): seq<ExtInfo> {
    if infos == [] then []
    else if infos[|infos| - 1].name == n then InfosNamed(infos[..|infos| - 1], n) + [infos[|infos| - 1]]
    else InfosNamed(infos[..|infos| - 1], n)
  }

  /** One info entry for each extension that is bridged, none for the others; foreign entries are untouched. */
  ghost predicate InfosOk(base: seq<ExtInfo>, sups: map<string, Sup>, infos: seq<ExtInfo>) {
    forall n: string ::
      InfosNamed(infos, n) == if n !in sups then InfosNamed(base, n)
                              else if sups[n].informed then [InfoOf(n, sups[n].registered)] else []
  }

  ghost predicate AppOk(own: Ownership, base: State, s: System) {
    && TablesOk(own, base.tables, s.sups, s.app.tables)
    && ListsOk(own, base.lists, s.sups, s.app.lists)
    && AllSorted(s.app.lists)
    && CompactorOk(own, base.compactor, s.sups, s.app.compactor)
    && InfosOk(base.infos, s.sups, s.app.infos)
  }

  ghost predicate SupsOk(own: Ownership, sups: map<string, Sup>) {
    forall e | e in sups :: SupOk(own, e, sups[e]) && CountersOk(sups[e]) && AliveOk(sups[e])
  }

  ghost predicate Inv(own: Ownership, base: State, s: System) {
    SupsOk(own, s.sups) && AppOk(own, base, s)
  }

  // ----- registering -----

  lemma TablesAfterEntry(own: Ownership, base: Tables, sups: map<string, Sup>, tables: Tables, e: string, k: TableKind, item: Item,
                         sup: Sup)
    requires TablesOk(own, base, sups, tables) && e in sups && own.entry(k, item.name) == e
    requires sup.registered == sups[e].registered + [Entry(k, item)]
    ensures TablesOk(own, base, sups[e := sup], tables[k := tables[k][item.name := item]])
  {
    var after := tables[k := tables[k][item.name := item]];
    forall t: TableKind, n: string
      ensures Lookup(after[t], n) == if own.entry(t, n) in sups then LastEntry(Registered(sups[e := sup], own.entry(t, n)), t, n)
                                     else Lookup(base[t], n)
    {
      EntrySnoc(sups[e].registered, Entry(k, item), t, n);
      NothingElse(Entry(k, item));
    }
  }

  lemma TablesAfterOther(own: Ownership, base: Tables, sups: map<string, Sup>, tables: Tables, e: string, reg: Reg, sup: Sup)
    requires TablesOk(own, base, sups, tables) && e in sups && !reg.Entry?
    requires sup.registered == sups[e].registered + [reg]
    ensures TablesOk(own, base, sups[e := sup], tables)
  {
    forall t: TableKind, n: string
      ensures LastEntry(sup.registered, t, n) == LastEntry(sups[e].registered, t, n)
    {
      EntrySnoc(sups[e].registered, reg, t, n);
      NothingElse(reg);
    }
  }

  lemma CountAfterListed(own: Ownership, base: Lists, sups: map<string, Sup>, e: string, k: ListKind, item: Item, sup: Sup,
                         l: ListKind, x: Item)
    requires e in sups && own.listed(k, item.name) == e
    requires sup.registered == sups[e].registered + [Listed(k, item)]
    ensures ExpectedCount(own, base, sups[e := sup], l, x) ==
            ExpectedCount(own, base, sups, l, x) + if l == k && x == item then 1 else 0
  {
    ListedSnoc(sups[e].registered, Listed(k, item), l);
    OneListed(k, item, l);
  }

  lemma ListsAfterListed(own: Ownership, base: Lists, sups: map<string, Sup>, lists: Lists, e: string, k: ListKind, item: Item,
                         after: Lists, sup: Sup)
    requires ListsOk(own, base, sups, lists) && e in sups && own.listed(k, item.name) == e
    requires CanRegister(lists, Listed(k, item), after)
    requires sup.registered == sups[e].registered + [Listed(k, item)]
    ensures ListsOk(own, base, sups[e := sup], after)
  {
    forall l: ListKind, x: Item ensures multiset(after[l])[x] == ExpectedCount(own, base, sups[e := sup], l, x) {
      CountAfterListed(own, base, sups, e, k, item, sup, l, x);
      assert multiset(lists[l])[x] == ExpectedCount(own, base, sups, l, x);
    }
  }

  lemma ListsAfterOther(own: Ownership, base: Lists, sups: map<string, Sup>, lists: Lists, e: string, reg: Reg, sup: Sup)
    requires ListsOk(own, base, sups, lists) && e in sups && !reg.Listed?
    requires sup.registered == sups[e].registered + [reg]
    ensures ListsOk(own, base, sups[e := sup], lists)
  {
    forall l: ListKind ensures ListedItems(sup.registered, l) == ListedItems(sups[e].registered, l) {
      ListedSnoc(sups[e].registered, reg, l);
      NothingElse(reg);
    }
  }

  lemma CompactorAfter(own: Ownership, base: Option<Item>, sups: map<string, Sup>, c: Option<Item>, e: string, reg: Reg, sup: Sup)
    requires CompactorOk(own, base, sups, c) && e in sups && (reg.Compact? ==> own.compactor == e)
    requires sup.registered == sups[e].registered + [reg]
    ensures CompactorOk(own, base, sups[e := sup], if reg.Compact? then Some(reg.item) else c)
  {
    CompactSnoc(sups[e].registered, reg);
    NothingElse(reg);
  }

  lemma RegisterEntryKeeps(own: Ownership, base: State, s: System, e: string, k: TableKind, item: Item, sup: Sup)
    requires AppOk(own, base, s) && e in s.sups && own.entry(k, item.name) == e && !s.sups[e].informed && !sup.informed
    requires sup.registered == s.sups[e].registered + [Entry(k, item)]
    ensures AppOk(own, base, System(RegisterOne(s.app, Entry(k, item), s.app.lists), s.sups[e := sup], s.nextHost))
  {
    TablesAfterEntry(own, base.tables, s.sups, s.app.tables, e, k, item, sup);
    ListsAfterOther(own, base.lists, s.sups, s.app.lists, e, Entry(k, item), sup);
    CompactorAfter(own, base.compactor, s.sups, s.app.compactor, e, Entry(k, item), sup);
  }

  lemma RegisterListedKeeps(own: Ownership, base: State, s: System, e: string, k: ListKind, item: Item, sorted: Lists, sup: Sup)
    requires AppOk(own, base, s) && e in s.sups && own.listed(k, item.name) == e && !s.sups[e].informed && !sup.informed
    requires CanRegister(s.app.lists, Listed(k, item), sorted)
    requires sup.registered == s.sups[e].registered + [Listed(k, item)]
    ensures AppOk(own, base, System(RegisterOne(s.app, Listed(k, item), sorted), s.sups[e := sup], s.nextHost))
  {
    TablesAfterOther(own, base.tables, s.sups, s.app.tables, e, Listed(k, item), sup);
    ListsAfterListed(own, base.lists, s.sups, s.app.lists, e, k, item, sorted, sup);
    SortedAdded(s.app.lists, k, sorted);
    CompactorAfter(own, base.compactor, s.sups, s.app.compactor, e, Listed(k, item), sup);
  }

  lemma RegisterCompactKeeps(own: Ownership, base: State, s: System, e: string, item: Item, sup: Sup)
    requires AppOk(own, base, s) && e in s.sups && own.compactor == e && !s.sups[e].informed && !sup.informed
    requires sup.registered == s.sups[e].registered + [Compact(item)]
    ensures AppOk(own, base, System(RegisterOne(s.app, Compact(item), s.app.lists), s.sups[e := sup], s.nextHost))
  {
    TablesAfterOther(own, base.tables, s.sups, s.app.tables, e, Compact(item), sup);
    ListsAfterOther(own, base.lists, s.sups, s.app.lists, e, Compact(item), sup);
    CompactorAfter(own, base.compactor, s.sups, s.app.compactor, e, Compact(item), sup);
  }

  lemma RegisterKeeps(own: Ownership, base: State, s: System, e: string, sorted: Lists)
    requires AppOk(own, base, s) && SupsOk(own, s.sups) && Enabled(own, s, e, Register(sorted))
    ensures AppOk(own, base, Next(s, e, Register(sorted)))
  {
    var sup := s.sups[e];
    var reg, next := sup.phase.todo[0], NextSup(sup, s.nextHost, Register(sorted));
    assert SupOk(own, e, sup);
    assert reg == sup.announced[|sup.registered|];
    match reg {
      case Entry(k, item) => RegisterEntryKeeps(own, base, s, e, k, item, next);
      case Listed(k, item) => RegisterListedKeeps(own, base, s, e, k, item, sorted, next);
      case Compact(item) => RegisterCompactKeeps(own, base, s, e, item, next);
    }
  }

  // ----- informing -----

  lemma InfosSnoc(infos: seq<ExtInfo>, info: ExtInfo, n: string)
    ensures InfosNamed(infos + [info], n) == if info.name == n then InfosNamed(infos, n) + [info] else InfosNamed(infos, n)
  {
    assert (infos + [info])[..|infos|] == infos;
  }

  lemma InfosAfterInform(base: seq<ExtInfo>, sups: map<string, Sup>, infos: seq<ExtInfo>, e: string, sup: Sup)
    requires InfosOk(base, sups, infos) && e in sups && !sups[e].informed
    requires sup.informed && sup.registered == sups[e].registered
    ensures InfosOk(base, sups[e := sup], infos + [InfoOf(e, sup.registered)])
  {
    var info := InfoOf(e, sup.registered);
    forall n: string ensures InfosNamed(infos + [info], n) == if n == e then [info] else InfosNamed(infos, n) {
      InfosSnoc(infos, info, n);
    }
  }

  lemma InformKeeps(own: Ownership, base: State, s: System, e: string)
    requires AppOk(own, base, s) && SupsOk(own, s.sups) && Enabled(own, s, e, Inform)
    ensures AppOk(own, base, Next(s, e, Inform))
  {
    assert SupOk(own, e, s.sups[e]);
    InformedKeeps(own, base, s, e, NextSup(s.sups[e], s.nextHost, Inform));
  }

  lemma InformedKeeps(own: Ownership, base: State, s: System, e: string, next: Sup)
    requires AppOk(own, base, s) && e in s.sups && !s.sups[e].informed
    requires next.informed && next.registered == s.sups[e].registered
    ensures AppOk(own, base, System(s.app.(infos := s.app.infos + [InfoOf(e, next.registered)]), s.sups[e := next], s.nextHost))
  {
    var t := System(s.app.(infos := s.app.infos + [InfoOf(e, next.registered)]), s.sups[e := next], s.nextHost);
    InfosAfterInform(base.infos, s.sups, s.app.infos, e, next);
    SameRegistered(own, base, s, t);
  }

  /** Tables, lists and compactor depend only on what each extension has registered. */
  lemma SameRegistered(own: Ownership, base: State, s: System, t: System)
    requires AppOk(own, base, s)
    requires t.sups.Keys == s.sups.Keys && forall e | e in s.sups :: t.sups[e].registered == s.sups[e].registered
    requires t.app == s.app.(infos := t.app.infos)
    ensures TablesOk(own, base.tables, t.sups, t.app.tables) && ListsOk(own, base.lists, t.sups, t.app.lists)
    ensures AllSorted(t.app.lists) && CompactorOk(own, base.compactor, t.sups, t.app.compactor)
  {
    assert forall e :: Registered(t.sups, e) == Registered(s.sups, e);
  }

  // ----- unregistering -----

  lemma {:induction false} FirstOfNamed(infos: seq<ExtInfo>, n: string)
    ensures FirstInfo(infos, n) == if InfosNamed(infos, n) == [] then None else Some(InfosNamed(infos, n)[0])
  {
    if infos != [] {
      var front, last := infos[..|infos| - 1], infos[|infos| - 1];
      FirstOfNamed(front, n);
      FirstOfSnoc(front, last, n);
      assert infos == front + [last];
    }
  }

  lemma {:induction false} FirstOfSnoc(infos: seq<ExtInfo>, info: ExtInfo, n: string)
    ensures FirstInfo(infos + [info], n) == Or(FirstInfo(infos, n), if info.name == n then Some(info) else None)
  {
    if infos == [] {
      assert (infos + [info])[1..] == [];
    } else {
      FirstOfSnoc(infos[1..], info, n);
      assert (infos + [info])[1..] == infos[1..] + [info];
    }
  }

  lemma {:induction false} OthersNamed(infos: seq<ExtInfo>, e: string, n: string)
    ensures InfosNamed(OtherInfos(infos, e), n) == if n == e then [] else InfosNamed(infos, n)
  {
    if infos != [] {
      var front, last := infos[..|infos| - 1], infos[|infos| - 1];
      OthersNamed(front, e, n);
      InfosSnoc(OtherInfos(front, e), last, n);
    }
  }

  lemma {:induction false} MarkedIsOwned(own: Ownership, e: string, host: nat, regs: seq<Reg>)
    requires WellNamed(own, e, host, regs)
    ensures forall k: TableKind, n: string | EntryMark(k, n) in Marks(regs) :: own.entry(k, n) == e
    ensures forall k: ListKind, n: string | ListMark(k, n) in Marks(regs) :: own.listed(k, n) == e
    ensures LastCompact(regs).Some? ==> own.compactor == e && LastCompact(regs).value.name != ""
  {
    if regs != [] {
      var front, last := regs[..|regs| - 1], regs[|regs| - 1];
      assert forall i | 0 <= i < |front| :: front[i] == regs[i];
      MarkedIsOwned(own, e, host, front);
    }
  }

  lemma TablesAfterRemoval(own: Ownership, base: Tables, sups: map<string, Sup>, tables: Tables, e: string, host: nat, after: Tables,
                           sup: Sup)
    requires TablesOk(own, base, sups, tables) && e in sups && sup.registered == []
    requires WellNamed(own, e, host, sups[e].registered) && TablesRemoved(tables, Marks(sups[e].registered), after)
    ensures TablesOk(own, base, sups[e := sup], after)
  {
    MarkedIsOwned(own, e, host, sups[e].registered);
    forall k: TableKind, n: string
      ensures Lookup(after[k], n) == if own.entry(k, n) in sups then LastEntry(Registered(sups[e := sup], own.entry(k, n)), k, n)
                                     else Lookup(base[k], n)
    {
      MarksCover(sups[e].registered, k, n);
    }
  }

  lemma ListsAfterRemoval(own: Ownership, base: Lists, sups: map<string, Sup>, lists: Lists, e: string, host: nat, after: Lists, sup: Sup)
    requires ListsOk(own, base, sups, lists) && e in sups && sup.registered == []
    requires WellNamed(own, e, host, sups[e].registered) && ListsRemoved(lists, Marks(sups[e].registered), after)
    ensures ListsOk(own, base, sups[e := sup], after)
  {
    MarkedIsOwned(own, e, host, sups[e].registered);
    forall k: ListKind, x: Item ensures multiset(after[k])[x] == ExpectedCount(own, base, sups[e := sup], k, x)
    {
      UnnamedCounts(lists[k], k, Marks(sups[e].registered), x);
      MarksCoverListed(sups[e].registered, k, x);
    }
  }

  lemma InfosAfterRemoval(base: seq<ExtInfo>, sups: map<string, Sup>, infos: seq<ExtInfo>, e: string, sup: Sup)
    requires InfosOk(base, sups, infos) && e in sups && !sup.informed
    ensures InfosOk(base, sups[e := sup], OtherInfos(infos, e))
  {
    forall n: string ensures InfosNamed(OtherInfos(infos, e), n) == if n == e then [] else InfosNamed(infos, n) {
      OthersNamed(infos, e, n);
    }
  }

  lemma CompactorAfterRemoval(own: Ownership, base: Option<Item>, sups: map<string, Sup>, c: Option<Item>, e: string, host: nat, sup: Sup)
    requires CompactorOk(own, base, sups, c) && e in sups && sup.registered == []
    requires WellNamed(own, e, host, sups[e].registered)
    ensures var name := CompactName(sups[e].registered);
            CompactorOk(own, base, sups[e := sup], if c.Some? && name != "" && c.value.name == name then None else c)
  {
    MarkedIsOwned(own, e, host, sups[e].registered);
    assert LastCompact([]) == None;
  }

  lemma RemovalKeeps(own: Ownership, base: State, s: System, e: string, host: nat, app: State, next: Sup)
    requires AppOk(own, base, s) && e in s.sups && WellNamed(own, e, host, s.sups[e].registered)
    requires Removed(s.app, InfoOf(e, s.sups[e].registered), app) && next.registered == [] && !next.informed
    ensures AppOk(own, base, System(app, s.sups[e := next], s.nextHost))
  {
    TablesAfterRemoval(own, base.tables, s.sups, s.app.tables, e, host, app.tables, next);
    ListsAfterRemoval(own, base.lists, s.sups, s.app.lists, e, host, app.lists, next);
    RemovedKeepsSorted(s.app.lists, Marks(s.sups[e].registered), app.lists);
    CompactorAfterRemoval(own, base.compactor, s.sups, s.app.compactor, e, host, next);
    InfosAfterRemoval(base.infos, s.sups, s.app.infos, e, next);
  }

  lemma UnregisterKeeps(own: Ownership, base: State, s: System, e: string)
    requires AppOk(own, base, s) && SupsOk(own, s.sups) && Enabled(own, s, e, Unregister)
    ensures AppOk(own, base, Next(s, e, Unregister))
  {
    var sup := s.sups[e];
    assert SupOk(own, e, sup);
    FirstOfNamed(s.app.infos, e);
    UnregisterOneIs(s.app, e);
    if sup.informed {
      RemovalKeeps(own, base, s, e, sup.host, UnregisterOne(s.app, e), NextSup(sup, s.nextHost, Unregister));
    } else {
      SameSup(own, base, s, e, NextSup(sup, s.nextHost, Unregister), s.nextHost);
    }
  }

  // ----- every run -----

  lemma SupsKeep(own: Ownership, s: System, e: string, a: Action)
    requires SupsOk(own, s.sups) && Enabled(own, s, e, a)
    ensures SupsOk(own, Next(s, e, a).sups)
  {
    CountersKept(own, s, e, a);
    AliveKept(own, s, e, a);
    SupKept(own, s, e, a);
  }

  lemma QuietSup(own: Ownership, s: System, e: string, a: Action)
    requires Enabled(own, s, e, a) && Holds(s.sups[e])
    requires !a.Register? && !a.Inform? && !a.Unregister?
    ensures NextSup(s.sups[e], s.nextHost, a).registered == s.sups[e].registered
    ensures NextSup(s.sups[e], s.nextHost, a).informed == s.sups[e].informed
  {}

  /** Every other action leaves the registry and what is registered alone. */
  lemma QuietKeeps(own: Ownership, base: State, s: System, e: string, a: Action)
    requires SupsOk(own, s.sups) && AppOk(own, base, s) && Enabled(own, s, e, a)
    requires !a.Register? && !a.Inform? && !a.Unregister?
    ensures AppOk(own, base, Next(s, e, a))
  {
    assert SupOk(own, e, s.sups[e]);
    QuietSup(own, s, e, a);
    SameSup(own, base, s, e, NextSup(s.sups[e], s.nextHost, a), Next(s, e, a).nextHost);
  }

  /** A supervisor may change in anything but what the app holds of its extension. */
  lemma SameSup(own: Ownership, base: State, s: System, e: string, next: Sup, host: nat)
    requires AppOk(own, base, s) && e in s.sups
    requires next.registered == s.sups[e].registered && next.informed == s.sups[e].informed
    ensures AppOk(own, base, System(s.app, s.sups[e := next], host))
  {
    SameRegistered(own, base, s, System(s.app, s.sups[e := next], host));
  }

  lemma AppKeeps(own: Ownership, base: State, s: System, e: string, a: Action)
    requires SupsOk(own, s.sups) && AppOk(own, base, s) && Enabled(own, s, e, a)
    ensures AppOk(own, base, Next(s, e, a))
  {
    match a {
      case Register(sorted) => RegisterKeeps(own, base, s, e, sorted);
      case Inform => InformKeeps(own, base, s, e);
      case Unregister => UnregisterKeeps(own, base, s, e);
      case _ => QuietKeeps(own, base, s, e, a);
    }
  }

  lemma StepKeeps(own: Ownership, base: State, s: System, e: string, a: Action)
    requires Inv(own, base, s) && Enabled(own, s, e, a)
    ensures Inv(own, base, Next(s, e, a)) && Next(s, e, a).sups.Keys == s.sups.Keys
  {
    SupsKeep(own, s, e, a);
    AppKeeps(own, base, s, e, a);
  }

  const FRESH := Sup(NotStarted, 0, [], [], [], false, 0, 1, false, false)

  /** What was there before the extensions: sorted, and none of it under a name an extension owns. */
  ghost predicate BaseOk(own: Ownership, base: State, names: set<string>) {
    && AllSorted(base.lists)
    && (forall k: TableKind, n: string | n in base.tables[k] :: own.entry(k, n) !in names)
    && (forall k: ListKind, x: Item | x in base.lists[k] :: own.listed(k, x.name) !in names)
    && (own.compactor in names ==> base.compactor == None)
    && forall n | n in names :: InfosNamed(base.infos, n) == []
  }

  ghost predicate Initial(base: State, names: set<string>, s: System) {
    s.app == base && s.sups == map e | e in names :: FRESH
  }

  /** The steps lead from s to t, whoever takes them in whatever order. */
  ghost predicate Run(own: Ownership, s: System, acts: seq<(string, Action)>, t: System)
    decreases |acts|
  {
    if acts == [] then t == s
    else exists before {:trigger Run(own, s, acts[..|acts| - 1], before)} ::
           && Run(own, s, acts[..|acts| - 1], before)
           && Enabled(own, before, acts[|acts| - 1].0, acts[|acts| - 1].1)
           && t == Next(before, acts[|acts| - 1].0, acts[|acts| - 1].1)
  }

  ghost predicate Reachable(own: Ownership, base: State, names: set<string>, s: System) {
    exists init, acts :: Initial(base, names, init) && Run(own, init, acts, s)
  }

  lemma {:induction false} RunKeeps(own: Ownership, base: State, s: System, acts: seq<(string, Action)>, t: System)
    requires Inv(own, base, s) && Run(own, s, acts, t)
    ensures Inv(own, base, t) && t.sups.Keys == s.sups.Keys
    decreases |acts|
  {
    if acts != [] {
      var front, last := acts[..|acts| - 1], acts[|acts| - 1];
      var before :| Run(own, s, front, before) && Enabled(own, before, last.0, last.1) && t == Next(before, last.0, last.1);
      RunKeeps(own, base, s, front, before);
      StepKeeps(own, base, before, last.0, last.1);
    }
  }

  lemma InitialInv(own: Ownership, base: State, names: set<string>, s: System)
    requires BaseOk(own, base, names) && Initial(base, names, s)
    ensures Inv(own, base, s)
  {
    assert forall e :: Registered(s.sups, e) == [];
    forall k: ListKind, x: Item | own.listed(k, x.name) in names ensures multiset(base.lists[k])[x] == 0 {
      assert x in multiset(base.lists[k]) <==> x in base.lists[k];
    }
    assert LastCompact([]) == None;
  }

  lemma ReachableInv(own: Ownership, base: State, names: set<string>, s: System)
    requires BaseOk(own, base, names) && Reachable(own, base, names, s)
    ensures Inv(own, base, s) && s.sups.Keys == names
  {
    var init, acts :| Initial(base, names, init) && Run(own, init, acts, s);
    InitialInv(own, base, names, init);
    RunKeeps(own, base, init, acts, s);
  }

  lemma ReachableSup(own: Ownership, base: State, names: set<string>, s: System, e: string)
    requires BaseOk(own, base, names) && Reachable(own, base, names, s) && e in s.sups
    ensures SupOk(own, e, s.sups[e]) && CountersOk(s.sups[e]) && AliveOk(s.sups[e])
  {
    ReachableInv(own, base, names, s);
  }

  // ----- what the registry holds in every phase -----

  /** What the app should hold of an extension: the first part while it is being bridged, all it announced while it is whole. */
  function Due(sup: Sup): seq<Reg> {
    if sup.phase.Bridging? && |sup.phase.todo| <= |sup.announced| then sup.announced[..|sup.announced| - |sup.phase.todo|]
    else if Whole(sup.phase) then Bridge.RegsIn(sup.heard)
    else []
  }

  /** The registrations amount to the same entries, list items and compactor. */
  ghost predicate SameEffect(a: seq<Reg>, b: seq<Reg>) {
    && (forall k: TableKind, n: string :: LastEntry(a, k, n) == LastEntry(b, k, n))
    && (forall k: ListKind :: ListedItems(a, k) == ListedItems(b, k))
    && LastCompact(a) == LastCompact(b)
  }

  lemma BridgedSameEffect(heard: seq<Bridge.Line>)
    ensures SameEffect(Bridged(heard), Bridge.RegsIn(heard))
  {
    var regs := Bridge.RegsIn(heard);
    forall k: TableKind, n: string ensures LastEntry(Bridged(heard), k, n) == LastEntry(regs, k, n) {
      Bridge.BridgeOrderHolds(regs, k, n, Interceptors);
    }
    forall l: ListKind ensures ListedItems(Bridged(heard), l) == ListedItems(regs, l) {
      Bridge.BridgeOrderHolds(regs, Tools, "", l);
    }
    Bridge.BridgeOrderHolds(regs, Tools, "", Interceptors);
  }

  lemma RegisteredIsDue(own: Ownership, e: string, sup: Sup)
    requires SupOk(own, e, sup)
    ensures SameEffect(sup.registered, Due(sup))
  {
    if sup.phase.Bridging? {
      assert sup.registered == sup.announced[..|sup.registered|];
    } else if Whole(sup.phase) {
      BridgedSameEffect(sup.heard);
    }
  }

  /** What the app holds under the names that extension e owns amounts to these registrations. */
  ghost predicate Shows(own: Ownership, app: State, e: string, regs: seq<Reg>) {
    && (forall k: TableKind, n: string | own.entry(k, n) == e :: Lookup(app.tables[k], n) == LastEntry(regs, k, n))
    && (forall k: ListKind, x: Item | own.listed(k, x.name) == e :: multiset(app.lists[k])[x] == ListedItems(regs, k)[x])
    && (own.compactor == e ==> app.compactor == LastCompact(regs))
  }

  /**
   Over any run of starts, crashes, failed restarts, reloads and stops, at any point, of any number of extensions, and in every phase:
   under an extension's names the registry holds what is due to it and nothing else, its info entry is there exactly
   while it is whole, and the lists are in priority order.
   */
  lemma RegistryIsBasePlusLive(own: Ownership, base: State, names: set<string>, s: System, e: string)
    requires BaseOk(own, base, names) && Reachable(own, base, names, s) && e in s.sups
    ensures Shows(own, s.app, e, Due(s.sups[e]))
    ensures InfosNamed(s.app.infos, e) == if Whole(s.sups[e].phase) then [InfoOf(e, Bridged(s.sups[e].heard))] else []
    ensures AllSorted(s.app.lists)
  {
    ReachableInv(own, base, names, s);
    assert SupOk(own, e, s.sups[e]);
    RegisteredIsDue(own, e, s.sups[e]);
    ShowsRegistered(own, base, s, e, Due(s.sups[e]));
  }

  lemma ShowsRegistered(own: Ownership, base: State, s: System, e: string, regs: seq<Reg>)
    requires AppOk(own, base, s) && e in s.sups && SameEffect(s.sups[e].registered, regs)
    ensures Shows(own, s.app, e, regs)
  {
    assert Registered(s.sups, e) == s.sups[e].registered;
    forall k: ListKind, x: Item | own.listed(k, x.name) == e ensures multiset(s.app.lists[k])[x] == ListedItems(regs, k)[x] {
      assert multiset(s.app.lists[k])[x] == ExpectedCount(own, base.lists, s.sups, k, x);
    }
  }

  /** Its supervisor neither bridges nor watches it, and is not about to unregister it. */
  predicate Unwatched(p: Phase) { p.Ended? || p == NotStarted || p == Waiting || p == Restarting || p == NoHost }

  /**
   Of an extension that nobody watches the registry still holds everything, info entry included, if and only if
   its supervisor gave up, or was stopped and returned from watching it; otherwise it holds nothing.
   */
  lemma UnwatchedStaysRegisteredIff(own: Ownership, base: State, names: set<string>, s: System, e: string)
    requires BaseOk(own, base, names) && Reachable(own, base, names, s) && e in s.sups && Unwatched(s.sups[e].phase)
    ensures InfosNamed(s.app.infos, e) != [] <==> s.sups[e].phase == Ended(GaveUp) || s.sups[e].phase == Ended(Stopped(true))
    ensures Shows(own, s.app, e, if InfosNamed(s.app.infos, e) != [] then Bridge.RegsIn(s.sups[e].heard) else [])
  {
    RegistryIsBasePlusLive(own, base, names, s, e);
  }

  /** A crash makes the supervisor give up if and only if it is the sixth in a row without a stable uptime. */
  lemma GivesUpIff(own: Ownership, base: State, names: set<string>, s: System, e: string, stable: bool)
    requires BaseOk(own, base, names) && Reachable(own, base, names, s) && Enabled(own, s, e, Crash(stable))
    ensures Next(s, e, Crash(stable)).sups[e].phase == Ended(GaveUp) <==> !stable && s.sups[e].failures == MAX_RESTARTS
  {
    ReachableSup(own, base, names, s, e);
  }

  /** What nobody's extension owns is never touched, whatever the extensions do. */
  lemma ForeignUntouched(own: Ownership, base: State, names: set<string>, s: System)
    requires BaseOk(own, base, names) && Reachable(own, base, names, s)
    ensures forall k: TableKind, n: string | own.entry(k, n) !in names :: Lookup(s.app.tables[k], n) == Lookup(base.tables[k], n)
    ensures forall k: ListKind, x: Item | own.listed(k, x.name) !in names ::
              multiset(s.app.lists[k])[x] == multiset(base.lists[k])[x]
    ensures own.compactor !in names ==> s.app.compactor == base.compactor
    ensures forall n | n !in names :: InfosNamed(s.app.infos, n) == InfosNamed(base.infos, n)
  {
    ReachableInv(own, base, names, s);
  }

  lemma {:induction false} LastEntryIn(regs: seq<Reg>, k: TableKind, n: string)
    requires LastEntry(regs, k, n).Some?
    ensures exists i :: 0 <= i < |regs| && regs[i] == Entry(k, LastEntry(regs, k, n).value)
  {
    var last := regs[|regs| - 1];
    if last.Entry? && last.table == k && last.item.name == n {
      assert regs[|regs| - 1] == Entry(k, last.item);
    } else {
      LastEntryIn(regs[..|regs| - 1], k, n);
      var i :| 0 <= i < |regs| - 1 && regs[..|regs| - 1][i] == Entry(k, LastEntry(regs, k, n).value);
      assert regs[i] == Entry(k, LastEntry(regs, k, n).value);
    }
  }

  /** No tool, command, shortcut or provider of a live extension is ever served by an earlier process of it. */
  lemma ServedByLiveHost(own: Ownership, base: State, names: set<string>, s: System, e: string, k: TableKind, n: string)
    requires BaseOk(own, base, names) && Reachable(own, base, names, s) && e in s.sups && s.sups[e].phase == Watching
    requires own.entry(k, n) == e && n in s.app.tables[k]
    ensures s.app.tables[k][n].host == s.sups[e].host
  {
    ReachableInv(own, base, names, s);
    assert SupOk(own, e, s.sups[e]);
    assert Registered(s.sups, e) == s.sups[e].announced;
    assert Lookup(s.app.tables[k], n) == LastEntry(s.sups[e].announced, k, n);
    LastEntryIn(s.sups[e].announced, k, n);
  }

  // ----- how often a crashing extension is restarted -----

  lemma DelayTable()
    ensures Delay(0) == 1 && Delay(1) == 2 && Delay(2) == 4 && Delay(3) == 8 && Delay(4) == 16 && Delay(5) == 16
  {
    assert Pow2(0) == 1;
    assert Pow2(1) == 2;
    assert Pow2(2) == 4;
    assert Pow2(3) == 8;
    assert Pow2(4) == 16;
    assert Pow2(5) == 32;
  }

  lemma BackoffLaw(own: Ownership, base: State, names: set<string>, s: System, e: string)
    requires BaseOk(own, base, names) && Reachable(own, base, names, s) && e in s.sups
    ensures s.sups[e].phase == Watching || s.sups[e].phase == NoHost ==>
              s.sups[e].failures <= 5 && s.sups[e].backoff == [1, 2, 4, 8, 16, 16][s.sups[e].failures]
    ensures s.sups[e].phase == Waiting ==>
              1 <= s.sups[e].failures <= 5 && s.sups[e].backoff == [1, 2, 4, 8, 16][s.sups[e].failures - 1]
  {
    DelayTable();
    ReachableSup(own, base, names, s, e);
  }

  function Crashes(acts: seq<(string, Action)>, e: string): nat {
    if acts == [] then 0
    else Crashes(acts[..|acts| - 1], e) + if acts[|acts| - 1] == (e, Crash(false)) then 1 else 0
  }

  /** Neither a stable uptime nor a reload: nothing that would reset the counters. */
  ghost predicate NoRest(acts: seq<(string, Action)>, e: string) {
    forall i | 0 <= i < |acts| && acts[i].0 == e :: acts[i].1 != Crash(true) && acts[i].1 != Reload
  }

  lemma {:induction false} CrashesCount(own: Ownership, s: System, acts: seq<(string, Action)>, t: System, e: string)
    requires Run(own, s, acts, t) && NoRest(acts, e) && e in s.sups
    ensures e in t.sups && t.sups[e].failures == s.sups[e].failures + Crashes(acts, e)
    decreases |acts|
  {
    if acts != [] {
      var front, last := acts[..|acts| - 1], acts[|acts| - 1];
      var before :| Run(own, s, front, before) && Enabled(own, before, last.0, last.1) && t == Next(before, last.0, last.1);
      CrashesCount(own, s, front, before, e);
      CrashCounts(own, before, last.0, last.1, e);
    }
  }

  lemma CrashCounts(own: Ownership, s: System, d: string, a: Action, e: string)
    requires Enabled(own, s, d, a) && e in s.sups && (d == e ==> a != Crash(true) && a != Reload)
    ensures Next(s, d, a).sups[e].failures == s.sups[e].failures + if (d, a) == (e, Crash(false)) then 1 else 0
  {}

  /** An extension that keeps crashing without a stable uptime or a reload in between is restarted at most five times. */
  lemma CrashStormEnds(own: Ownership, base: State, names: set<string>, s: System, acts: seq<(string, Action)>, t: System, e: string)
    requires BaseOk(own, base, names) && Reachable(own, base, names, s) && e in s.sups
    requires Run(own, s, acts, t) && NoRest(acts, e)
    ensures Crashes(acts, e) <= MAX_RESTARTS + 1
    ensures Crashes(acts, e) == MAX_RESTARTS + 1 ==> e in t.sups && t.sups[e].phase.Ended?
  {
    ReachableInv(own, base, names, s);
    RunKeeps(own, base, s, acts, t);
    CrashesCount(own, s, acts, t, e);
    assert CountersOk(t.sups[e]);
  }

  // ----- giving up can happen -----

  function Insert(k: ListKind, xs: seq<Item>, item: Item): seq<Item> {
    if xs == [] || InOrder(k, xs[|xs| - 1], item) then xs + [item]
    else Insert(k, xs[..|xs| - 1], item) + [xs[|xs| - 1]]
  }

  lemma {:induction false} InsertKeeps(k: ListKind, xs: seq<Item>, item: Item)
    ensures multiset(Insert(k, xs, item)) == multiset(xs) + multiset{item}
  {
    if xs != [] && !InOrder(k, xs[|xs| - 1], item) {
      InsertKeeps(k, xs[..|xs| - 1], item);
      assert xs == xs[..|xs| - 1] + [xs[|xs| - 1]];
    }
  }

  lemma {:induction false} InsertHolds(k: ListKind, xs: seq<Item>, item: Item, x: Item)
    requires x in Insert(k, xs, item)
    ensures x == item || x in xs
  {
    if xs != [] && !InOrder(k, xs[|xs| - 1], item) && x in Insert(k, xs[..|xs| - 1], item) {
      InsertHolds(k, xs[..|xs| - 1], item, x);
    }
  }

  lemma {:induction false} InsertSorts(k: ListKind, xs: seq<Item>, item: Item)
    requires SortedBy(k, xs)
    ensures SortedBy(k, Insert(k, xs, item))
  {
    if xs != [] && !InOrder(k, xs[|xs| - 1], item) {
      var front, last := xs[..|xs| - 1], xs[|xs| - 1];
      InsertSorts(k, front, item);
      var into := Insert(k, front, item);
      forall i | 0 <= i < |into| ensures InOrder(k, into[i], last) { InsertHolds(k, front, item, into[i]); }
    }
  }

  lemma CanAlwaysRegister(lists: Lists, reg: Reg) returns (sorted: Lists)
    requires AllSorted(lists)
    ensures CanRegister(lists, reg, sorted)
  {
    sorted := lists;
    if reg.Listed? {
      InsertSorts(reg.list, lists[reg.list], reg.item);
      InsertKeeps(reg.list, lists[reg.list], reg.item);
      sorted := lists[reg.list := Insert(reg.list, lists[reg.list], reg.item)];
    }
  }

  predicate NoReload(acts: seq<(string, Action)>, e: string) {
    forall i | 0 <= i < |acts| && acts[i].0 == e :: acts[i].1 != Reload
  }

  lemma RunSnoc(own: Ownership, s0: System, acts: seq<(string, Action)>, s: System, e: string, a: Action)
    requires Run(own, s0, acts, s) && Enabled(own, s, e, a)
    ensures Run(own, s0, acts + [(e, a)], Next(s, e, a))
  {
    assert (acts + [(e, a)])[..|acts|] == acts;
  }

  lemma Extend(own: Ownership, s0: System, acts: seq<(string, Action)>, s: System, e: string, a: Action)
    returns (acts': seq<(string, Action)>, t: System)
    requires Run(own, s0, acts, s) && Enabled(own, s, e, a)
    ensures Run(own, s0, acts', t) && (NoReload(acts, e) && a != Reload ==> NoReload(acts', e))
    ensures e in t.sups && t.sups[e] == NextSup(s.sups[e], s.nextHost, a)
    ensures t.nextHost == if a.Started? then s.nextHost + 1 else s.nextHost
  {
    acts', t := acts + [(e, a)], Next(s, e, a);
    RunSnoc(own, s0, acts, s, e, a);
  }

  /** A bridging that has begun can be completed. */
  lemma {:induction false} FinishBridging(own: Ownership, base: State, s0: System, acts0: seq<(string, Action)>, s: System, e: string)
    returns (acts: seq<(string, Action)>, t: System)
    requires Inv(own, base, s0) && Run(own, s0, acts0, s) && e in s.sups && s.sups[e].phase.Bridging?
    ensures Run(own, s0, acts, t) && e in t.sups && t.sups[e].phase == Watching && t.nextHost == s.nextHost
    ensures t.sups[e].failures == s.sups[e].failures && t.sups[e].heard == s.sups[e].heard
    ensures t.sups[e].alive == s.sups[e].alive && t.sups[e].stopped == s.sups[e].stopped
    ensures NoReload(acts0, e) ==> NoReload(acts, e)
    decreases |s.sups[e].phase.todo|
  {
    if s.sups[e].phase.todo == [] {
      acts, t := Extend(own, s0, acts0, s, e, Inform);
    } else {
      RunKeeps(own, base, s0, acts0, s);
      var sorted := CanAlwaysRegister(s.app.lists, s.sups[e].phase.todo[0]);
      acts, t := Extend(own, s0, acts0, s, e, Register(sorted));
      acts, t := FinishBridging(own, base, s0, acts, t, e);
    }
  }

  /** e is live and bridged after n failures in a row. */
  predicate Up(s: System, e: string, n: nat) {
    e in s.sups && s.sups[e].phase == Watching && s.sups[e].failures == n && s.sups[e].alive
  }

  /** What process `host` of e may write: its reply, and registrations under its own names. */
  ghost predicate Speaks(own: Ownership, e: string, host: nat, heard: seq<Bridge.Line>) {
    Bridge.InitReply in heard && WellNamed(own, e, host, Bridge.RegsIn(heard))
  }

  /** It starts, or starts again, and is bridged. */
  lemma StartAndBridge(own: Ownership, base: State, s0: System, acts0: seq<(string, Action)>, s: System, e: string,
                       heard: seq<Bridge.Line>)
    returns (acts: seq<(string, Action)>, t: System)
    requires Inv(own, base, s0) && Run(own, s0, acts0, s) && e in s.sups && Speaks(own, e, s.nextHost, heard)
    requires Starting(s.sups[e].phase)
    ensures Run(own, s0, acts, t) && Up(t, e, s.sups[e].failures) && t.sups[e].heard == heard && t.nextHost == s.nextHost + 1
    ensures t.sups[e].stopped == s.sups[e].stopped && (NoReload(acts0, e) ==> NoReload(acts, e))
  {
    acts, t := acts0, s;
    if !s.sups[e].alive {
      acts, t := Extend(own, s0, acts, t, e, Spawn);
    }
    acts, t := Extend(own, s0, acts, t, e, Started(heard));
    acts, t := FinishBridging(own, base, s0, acts, t, e);
  }

  /** One crash soon after the start, up to the restart that follows. */
  lemma CrashAndWait(own: Ownership, s0: System, acts0: seq<(string, Action)>, s: System, e: string, n: nat)
    returns (acts: seq<(string, Action)>, t: System)
    requires Run(own, s0, acts0, s) && Up(s, e, n) && n < MAX_RESTARTS && !s.sups[e].stopped
    ensures Run(own, s0, acts, t) && e in t.sups && t.sups[e].phase == Restarting && t.sups[e].failures == n + 1
    ensures !t.sups[e].stopped && !t.sups[e].alive && t.nextHost == s.nextHost
  {
    acts, t := Extend(own, s0, acts0, s, e, Exit);
    acts, t := Extend(own, s0, acts, t, e, Crash(false));
    acts, t := Extend(own, s0, acts, t, e, Unregister);
    acts, t := Extend(own, s0, acts, t, e, Timer);
  }

  /** One crash soon after the start, and the restart. */
  lemma CrashAndRestart(own: Ownership, base: State, s0: System, acts0: seq<(string, Action)>, s: System, e: string,
                        heard: seq<Bridge.Line>, n: nat)
    returns (acts: seq<(string, Action)>, t: System)
    requires Inv(own, base, s0) && Run(own, s0, acts0, s) && Speaks(own, e, s.nextHost, heard)
    requires Up(s, e, n) && n < MAX_RESTARTS && !s.sups[e].stopped
    ensures Run(own, s0, acts, t) && Up(t, e, n + 1) && t.sups[e].heard == heard && t.nextHost == s.nextHost + 1
    ensures !t.sups[e].stopped
  {
    acts, t := CrashAndWait(own, s0, acts0, s, e, n);
    acts, t := StartAndBridge(own, base, s0, acts, t, e, heard);
  }

  /** A process that replies and registers nothing. */
  lemma Silent(own: Ownership, e: string, host: nat)
    ensures Speaks(own, e, host, [Bridge.InitReply])
  {
    assert [Bridge.InitReply][..0] == [];
    assert Bridge.RegsIn([Bridge.InitReply]) == [];
  }

  /** n crashes in a row, each followed by a restart. */
  lemma {:induction false} CrashTimes(own: Ownership, base: State, s0: System, e: string, n: nat)
    returns (acts: seq<(string, Action)>, t: System)
    requires Inv(own, base, s0) && e in s0.sups && s0.sups[e] == FRESH && n <= MAX_RESTARTS
    ensures Run(own, s0, acts, t) && Up(t, e, n) && t.nextHost == s0.nextHost + n + 1 && !t.sups[e].stopped
  {
    Silent(own, e, s0.nextHost + n);
    if n == 0 {
      acts, t := StartAndBridge(own, base, s0, [], s0, e, [Bridge.InitReply]);
    } else {
      acts, t := CrashTimes(own, base, s0, e, n - 1);
      acts, t := CrashAndRestart(own, base, s0, acts, t, e, [Bridge.InitReply], n - 1);
    }
  }

  /**
   Whatever the last of its processes announces: if an extension crashes six times in a row its supervisor gives up, and
   the app goes on showing all that was announced.
   */
  lemma GivingUpIsReachable(own: Ownership, base: State, names: set<string>, init: System, e: string, heard: seq<Bridge.Line>)
    returns (s: System)
    requires BaseOk(own, base, names) && Initial(base, names, init) && e in names
    requires Speaks(own, e, init.nextHost + MAX_RESTARTS, heard)
    ensures Reachable(own, base, names, s) && e in s.sups && s.sups[e].phase == Ended(GaveUp)
    ensures Shows(own, s.app, e, Bridge.RegsIn(heard)) && InfosNamed(s.app.infos, e) != []
  {
    InitialInv(own, base, names, init);
    var acts;
    acts, s := CrashTimes(own, base, init, e, MAX_RESTARTS - 1);
    acts, s := CrashAndRestart(own, base, init, acts, s, e, heard, MAX_RESTARTS - 1);
    acts, s := Extend(own, init, acts, s, e, Exit);
    acts, s := Extend(own, init, acts, s, e, Crash(false));
    assert Reachable(own, base, names, s);
    RegistryIsBasePlusLive(own, base, names, s, e);
  }

  /** The same when it is stopped while it runs: the process is gone, all that it announced is still shown. */
  lemma StoppingKeepsRegistered(own: Ownership, base: State, names: set<string>, init: System, e: string, heard: seq<Bridge.Line>)
    returns (s: System)
    requires BaseOk(own, base, names) && Initial(base, names, init) && e in names && Speaks(own, e, init.nextHost, heard)
    ensures Reachable(own, base, names, s) && e in s.sups && s.sups[e].phase == Ended(Stopped(true)) && !s.sups[e].alive
    ensures Shows(own, s.app, e, Bridge.RegsIn(heard)) && InfosNamed(s.app.infos, e) != []
  {
    InitialInv(own, base, names, init);
    var acts;
    acts, s := StartAndBridge(own, base, init, [], init, e, heard);
    acts, s := Extend(own, init, acts, s, e, Stop);
    acts, s := Extend(own, init, acts, s, e, Leave);
    assert Reachable(own, base, names, s);
    RegistryIsBasePlusLive(own, base, names, s, e);
  }

  // ----- failed starts -----

  /** A first start that fails ends the supervisor; nothing of the extension is registered. */
  lemma FirstStartFails(own: Ownership, base: State, names: set<string>, init: System, e: string) returns (s: System)
    requires BaseOk(own, base, names) && Initial(base, names, init) && e in names
    ensures Reachable(own, base, names, s) && e in s.sups && s.sups[e].phase == Ended(NeverStarted) && !s.sups[e].alive
    ensures Shows(own, s.app, e, []) && InfosNamed(s.app.infos, e) == []
  {
    InitialInv(own, base, names, init);
    var acts;
    acts, s := Extend(own, init, [], init, e, Spawn);
    acts, s := Extend(own, init, acts, s, e, StartFailed);
    assert Reachable(own, base, names, s);
    RegistryIsBasePlusLive(own, base, names, s, e);
  }

  /** A restart that fails leaves it without a host and unregistered ... */
  lemma RestartFails(own: Ownership, base: State, init: System, e: string) returns (acts: seq<(string, Action)>, s: System)
    requires Inv(own, base, init) && e in init.sups && init.sups[e] == FRESH
    ensures Run(own, init, acts, s) && e in s.sups && s.sups[e].phase == NoHost && !s.sups[e].alive
    ensures s.nextHost == init.nextHost + 1 && s.sups[e].failures == 1
  {
    Silent(own, e, init.nextHost);
    acts, s := StartAndBridge(own, base, init, [], init, e, [Bridge.InitReply]);
    acts, s := CrashAndWait(own, init, acts, s, e, 0);
    acts, s := Extend(own, init, acts, s, e, Spawn);
    acts, s := Extend(own, init, acts, s, e, StartFailed);
  }

  lemma ReloadRestarts(own: Ownership, base: State, init: System, e: string, heard: seq<Bridge.Line>)
    returns (acts: seq<(string, Action)>, s: System)
    requires Inv(own, base, init) && e in init.sups && init.sups[e] == FRESH && Speaks(own, e, init.nextHost + 1, heard)
    ensures Run(own, init, acts, s) && Up(s, e, 1) && s.sups[e].heard == heard
  {
    acts, s := RestartFails(own, base, init, e);
    acts, s := Extend(own, init, acts, s, e, Reload);
    acts, s := Extend(own, init, acts, s, e, Unregister);
    acts, s := StartAndBridge(own, base, init, acts, s, e, heard);
  }

  /** ... with nothing shown of it, until a reload brings it back with whatever the new process announces. */
  lemma ReloadRecovers(own: Ownership, base: State, names: set<string>, init: System, e: string, heard: seq<Bridge.Line>)
    returns (s: System, t: System)
    requires BaseOk(own, base, names) && Initial(base, names, init) && e in names && Speaks(own, e, init.nextHost + 1, heard)
    ensures Reachable(own, base, names, s) && e in s.sups && s.sups[e].phase == NoHost && !s.sups[e].alive
    ensures Shows(own, s.app, e, []) && InfosNamed(s.app.infos, e) == []
    ensures Reachable(own, base, names, t) && e in t.sups && t.sups[e].phase == Watching && t.sups[e].alive
    ensures Shows(own, t.app, e, Bridge.RegsIn(heard))
  {
    InitialInv(own, base, names, init);
    var acts;
    acts, s := RestartFails(own, base, init, e);
    Reached(own, base, names, init, acts, s, e);
    acts, t := ReloadRestarts(own, base, init, e, heard);
    Reached(own, base, names, init, acts, t, e);
  }

  /** What the app shows at the end of a run. */
  lemma Reached(own: Ownership, base: State, names: set<string>, init: System, acts: seq<(string, Action)>, s: System, e: string)
    requires BaseOk(own, base, names) && Initial(base, names, init) && Run(own, init, acts, s) && e in s.sups
    ensures Reachable(own, base, names, s) && Shows(own, s.app, e, Due(s.sups[e]))
    ensures !Whole(s.sups[e].phase) ==> InfosNamed(s.app.infos, e) == []
  {
    assert Reachable(own, base, names, s);
    RegistryIsBasePlusLive(own, base, names, s, e);
  }

  // ----- what a stop leaves running -----

  /** Stopped, no process running, and no restart under way. */
  predicate Down(sups: map<string, Sup>, e: string) {
    e in sups && sups[e].stopped && !sups[e].alive && (HostSet(sups[e].phase) || sups[e].phase == NoHost || sups[e].phase.Ended?)
  }

  lemma StepStaysDown(own: Ownership, s: System, d: string, a: Action, e: string)
    requires Enabled(own, s, d, a) && Down(s.sups, e) && (s.sups[e].phase.Ended? || (d == e ==> a != Reload))
    ensures Down(Next(s, d, a).sups, e) && (s.sups[e].phase.Ended? ==> Next(s, d, a).sups[e].phase.Ended?)
  {}

  /** Once it is down no process of it runs any more, unless a reload is taken before the watch loop has returned. */
  lemma {:induction false} StaysDown(own: Ownership, s: System, acts: seq<(string, Action)>, t: System, e: string)
    requires Run(own, s, acts, t) && Down(s.sups, e) && (s.sups[e].phase.Ended? || NoReload(acts, e))
    ensures Down(t.sups, e) && (s.sups[e].phase.Ended? ==> t.sups[e].phase.Ended?)
    decreases |acts|
  {
    if acts != [] {
      var front, last := acts[..|acts| - 1], acts[|acts| - 1];
      var before :| Run(own, s, front, before) && Enabled(own, before, last.0, last.1) && t == Next(before, last.0, last.1);
      StaysDown(own, s, front, before, e);
      StepStaysDown(own, before, last.0, last.1, e);
    }
  }

  lemma RestartBegins(own: Ownership, s0: System, acts0: seq<(string, Action)>, s: System, e: string)
    returns (acts: seq<(string, Action)>, t: System)
    requires Run(own, s0, acts0, s) && e in s.sups
    requires Starting(s.sups[e].phase) || s.sups[e].phase == Waiting || s.sups[e].phase.Unregistering?
    ensures Run(own, s0, acts, t) && e in t.sups && Starting(t.sups[e].phase) && t.nextHost == s.nextHost
    ensures t.sups[e].stopped == s.sups[e].stopped && (NoReload(acts0, e) ==> NoReload(acts, e))
  {
    acts, t := acts0, s;
    if t.sups[e].phase.Unregistering? {
      acts, t := Extend(own, s0, acts, t, e, Unregister);
    }
    if t.sups[e].phase == Waiting {
      acts, t := Extend(own, s0, acts, t, e, Timer);
    }
  }

  /** A restart that is under way when the supervisor is stopped can still succeed; then its process is left running. */
  lemma RestartSurvives(own: Ownership, base: State, s0: System, acts0: seq<(string, Action)>, s: System, e: string,
                        heard: seq<Bridge.Line>)
    returns (acts: seq<(string, Action)>, t: System)
    requires Inv(own, base, s0) && Run(own, s0, acts0, s) && e in s.sups && s.sups[e].stopped && Speaks(own, e, s.nextHost, heard)
    requires Starting(s.sups[e].phase) || s.sups[e].phase == Waiting || s.sups[e].phase.Unregistering?
    ensures Run(own, s0, acts, t) && (NoReload(acts0, e) ==> NoReload(acts, e))
    ensures e in t.sups && t.sups[e].phase == Ended(Stopped(true)) && t.sups[e].alive && t.sups[e].heard == heard
  {
    acts, t := RestartBegins(own, s0, acts0, s, e);
    acts, t := StartAndBridge(own, base, s0, acts, t, e, heard);
    acts, t := Extend(own, s0, acts, t, e, Leave);
  }

  /** A reload taken after the stop is such a restart. */
  lemma ReloadSurvives(own: Ownership, base: State, s: System, e: string)
    returns (acts: seq<(string, Action)>, t: System)
    requires Inv(own, base, s) && e in s.sups && s.sups[e].stopped && (HostSet(s.sups[e].phase) || s.sups[e].phase == NoHost)
    ensures Run(own, s, acts, t)
    ensures e in t.sups && t.sups[e].phase == Ended(Stopped(true)) && t.sups[e].alive
  {
    acts, t := [], s;
    if t.sups[e].phase.Bridging? {
      acts, t := FinishBridging(own, base, s, acts, t, e);
    }
    acts, t := Extend(own, s, acts, t, e, Reload);
    Silent(own, e, t.nextHost);
    acts, t := RestartSurvives(own, base, s, acts, t, e, [Bridge.InitReply]);
  }

  /** Whatever runs on from here, without reloads of e or with them: when its watch loop has returned none of its processes runs. */
  ghost predicate LeavesNothing(own: Ownership, s: System, e: string, reloads: bool) {
    forall acts, t | Run(own, s, acts, t) && (reloads || NoReload(acts, e)) && e in t.sups && t.sups[e].phase.Ended? ::
      !t.sups[e].alive
  }

  /**
   Stopping a supervisor, at whatever point of whatever run, leaves no process of its extension running if and only if
   it does not fall into a start or a restart, from the moment a crash or a reload was noticed to the moment the new
   host is set, and no reload signal is taken afterwards.
   */
  lemma StopLeavesNothingIff(own: Ownership, base: State, names: set<string>, s: System, e: string, reloads: bool)
    requires BaseOk(own, base, names) && Reachable(own, base, names, s) && Enabled(own, s, e, Stop)
    ensures LeavesNothing(own, Next(s, e, Stop), e, reloads) <==>
            s.sups[e].phase.Ended? || (!reloads && (HostSet(s.sups[e].phase) || s.sups[e].phase == NoHost))
  {
    ReachableInv(own, base, names, s);
    ReachableSup(own, base, names, s, e);
    StepKeeps(own, base, s, e, Stop);
    var after, phase := Next(s, e, Stop), s.sups[e].phase;
    if phase.Ended? || (!reloads && (HostSet(phase) || phase == NoHost)) {
      forall acts, t | Run(own, after, acts, t) && (reloads || NoReload(acts, e)) && e in t.sups && t.sups[e].phase.Ended?
        ensures !t.sups[e].alive
      {
        StaysDown(own, after, acts, t, e);
      }
    } else if HostSet(phase) || phase == NoHost {
      var acts, t := ReloadSurvives(own, base, after, e);
    } else {
      Silent(own, e, after.nextHost);
      var acts, t := RestartSurvives(own, base, after, [], after, e, [Bridge.InitReply]);
    }
  }

  /** A run in which it crashes once and is stopped while it is started again: the new process stays, unwatched and shown. */
  lemma StopDuringRestart(own: Ownership, base: State, names: set<string>, init: System, e: string, heard: seq<Bridge.Line>)
    returns (s: System)
    requires BaseOk(own, base, names) && Initial(base, names, init) && e in names && Speaks(own, e, init.nextHost + 1, heard)
    ensures Reachable(own, base, names, s) && e in s.sups && s.sups[e].phase == Ended(Stopped(true)) && s.sups[e].alive
    ensures Shows(own, s.app, e, Bridge.RegsIn(heard))
  {
    InitialInv(own, base, names, init);
    Silent(own, e, init.nextHost);
    var acts;
    acts, s := StartAndBridge(own, base, init, [], init, e, [Bridge.InitReply]);
    acts, s := CrashAndWait(own, init, acts, s, e, 0);
    acts, s := Extend(own, init, acts, s, e, Stop);
    acts, s := RestartSurvives(own, base, init, acts, s, e, heard);
    assert Reachable(own, base, names, s);
    RegistryIsBasePlusLive(own, base, names, s, e);
  }
}
