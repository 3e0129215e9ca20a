/**
 From the author's calls into the SDK to the app's registry: handshake, bridging, crashes and restarts taken together.
 */
module EndToEnd {
  import opened Registry
  import Bridge
  import Handshake
  import opened AuthorCalls
  import opened Supervisor

  /** These lines are what some process built on the SDK had written when its host read up to here, reply included. */
  ghost predicate FromSdk(heard: seq<Bridge.Line>, evs: seq<Handshake.Event>, p: Handshake.Peer) {
    && Handshake.Reaches(evs, p) && p.reply.Some?
    && p.reply.value.at < |heard| && heard <= p.own.sent
  }

  lemma ShowsCalls(own: Ownership, app: State, e: string, heard: seq<Bridge.Line>, evs: seq<Handshake.Event>, p: Handshake.Peer)
    requires FromSdk(heard, evs, p) && Shows(own, app, e, Bridge.RegsIn(heard))
    ensures Shows(own, app, e, RegsOf(CallsMade(evs)) + Bridge.RegsIn(heard[p.reply.value.at + 1..]))
    ensures Handshake.OnlyProviders(heard[p.reply.value.at + 1..])
  {
    var regs, late := RegsOf(CallsMade(evs)), Bridge.RegsIn(heard[p.reply.value.at + 1..]);
    assert heard == p.own.sent[..|heard|] && heard[p.reply.value.at + 1..] == Late(p, |heard|);
    forall k: TableKind, n: string | own.entry(k, n) == e ensures Lookup(app.tables[k], n) == LastEntry(regs + late, k, n) {
      ReadAmountsToCalls(evs, p, |heard|, k, n, Interceptors);
    }
    forall k: ListKind, x: Item | own.listed(k, x.name) == e ensures multiset(app.lists[k])[x] == ListedItems(regs + late, k)[x] {
      ReadAmountsToCalls(evs, p, |heard|, Tools, "", k);
    }
    ReadAmountsToCalls(evs, p, |heard|, Tools, "", Interceptors);
  }

  /**
   Over any run of any number of extensions: while an extension built on the SDK is live and bridged, the app shows
   under its names exactly what its author had registered by calls into the SDK up to the answer to initialize, in
   whatever order the SDK's maps were iterated, followed by the providers registered after it that the host had read.
   */
  lemma LiveExtensionIsShown(own: Ownership, base: State, names: set<string>, s: System, e: string,
                             evs: seq<Handshake.Event>, p: Handshake.Peer)
    requires BaseOk(own, base, names) && Reachable(own, base, names, s) && e in s.sups && s.sups[e].phase == Watching
    requires FromSdk(s.sups[e].heard, evs, p)
    ensures Shows(own, s.app, e, RegsOf(CallsMade(evs)) + Bridge.RegsIn(s.sups[e].heard[p.reply.value.at + 1..]))
    ensures Handshake.OnlyProviders(s.sups[e].heard[p.reply.value.at + 1..])
  {
    RegistryIsBasePlusLive(own, base, names, s, e);
    ShowsCalls(own, s.app, e, s.sups[e].heard, evs, p);
  }
}
