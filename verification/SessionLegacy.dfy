/** Files from before entries had ids: the lines get sequential ids and form one chain, in the order they were written. */
module SessionLegacy {
  import opened Prelude
  import opened SessionModel
  import opened SessionTree

  // ----- the ids -----

  /** The number that decimal digits stand for. */
  function Decimal(s: string): nat {
    if s == "" then 0
    else 10 * Decimal(s[..|s| - 1]) + (if '0' <= s[|s| - 1] <= '9' then s[|s| - 1] as int - '0' as int else 0)
  }

  lemma {:induction false} DigitsAreDecimal(n: nat)
    ensures Digits(n) != "" && Decimal(Digits(n)) == n && forall i | 0 <= i < |Digits(n)| :: '0' <= Digits(n)[i] <= '9'
  {
    var s := Digits(n);
    if n >= 10 {
      DigitsAreDecimal(n / 10);
      assert s[..|s| - 1] == Digits(n / 10);
    } else {
      assert s[..|s| - 1] == "" && Decimal("") == 0;
    }
  }

  function LegacyId(n: nat): Id { "L" + Digits(n) }

  /** Different lines get different ids, and none the empty one. */
  lemma LegacyIdsDistinct(m: nat, n: nat)
    ensures LegacyId(m) == LegacyId(n) <==> m == n
    ensures LegacyId(n) != "" && LegacyId(n)[0] == 'L' && Decimal(LegacyId(n)[1..]) == n
  {
    DigitsAreDecimal(m);
    DigitsAreDecimal(n);
    assert LegacyId(m)[1..] == Digits(m) && LegacyId(n)[1..] == Digits(n);
  }

  function LegacyIds(n: nat): (ids: seq<Id>)
    ensures |ids| == n && forall i | 0 <= i < n :: ids[i] == LegacyId(i)
  {
    seq(n, i requires 0 <= i => LegacyId(i))
  }

  // ----- replaying such a file -----

  /** Apart from metadata, no line has an id or a parent. */
  predicate AllLegacy(log: seq<Entry>) {
    forall i | 0 <= i < |log| :: log[i].typ == TYPE_META || (log[i].id == "" && log[i].parentId == "")
  }

  /** The lines other than metadata. */
  function Body(log: seq<Entry>): seq<Entry> {
    if log == [] then []
    else if log[|log| - 1].typ == TYPE_META then Body(log[..|log| - 1])
    else Body(log[..|log| - 1]) + [log[|log| - 1]]
  }

  /** Node i carries line i: what the line leaves when it has id and parent. */
  ghost predicate Carries(nodes: map<Id, Node>, i: nat, e: Entry) {
    && LegacyId(i) in nodes
    && nodes[LegacyId(i)].parentId == (if i == 0 then "" else LegacyId(i - 1))
    && nodes[LegacyId(i)] == NodeOf(e).(parentId := nodes[LegacyId(i)].parentId)
  }

  /** One chain of nodes, one for each line, the last of them the leaf. */
  ghost predicate Chained(s: State, body: seq<Entry>) {
    && s.legacySeq == |body|
    && s.leaf == (if body == [] then "" else LegacyId(|body| - 1))
    && (forall id :: id in s.nodes <==> id in LegacyIds(|body|))
    && forall i | 0 <= i < |body| :: Carries(s.nodes, i, body[i])
  }

  lemma ChainGrows(s: State, body: seq<Entry>, e: Entry)
    requires Chained(s, body) && e.typ != TYPE_META && e.id == "" && e.parentId == ""
    ensures Chained(ReplayEntry(s, e), body + [e])
  {
    var t, n := ReplayEntry(s, e), |body|;
    assert LegacyIds(n + 1) == LegacyIds(n) + [LegacyId(n)];
    if n > 0 { LegacyIdsDistinct(n - 1, n); }
    forall i | 0 <= i < n + 1 ensures Carries(t.nodes, i, (body + [e])[i]) {
      if i < n { CarriesStill(s.nodes, i, body[i], n, t.nodes[LegacyId(n)]); }
    }
  }

  lemma CarriesStill(nodes: map<Id, Node>, i: nat, e: Entry, n: nat, node: Node)
    requires Carries(nodes, i, e) && i < n
    ensures Carries(nodes[LegacyId(n) := node], i, e)
  {
    LegacyIdsDistinct(i, n);
  }

  lemma {:induction false} LegacyIsChained(log: seq<Entry>)
    requires AllLegacy(log)
    ensures Chained(Replay(log), Body(log))
  {
    if log != [] {
      var front, e := log[..|log| - 1], log[|log| - 1];
      assert AllLegacy(front);
      LegacyIsChained(front);
      assert e == log[|log| - 1];
      if e.typ != TYPE_META { ChainGrows(Replay(front), Body(front), e); }
    }
  }

  /** The messages along the chain, line by line. */
  function LinesShow(body: seq<Entry>): seq<Message> {
    if body == [] then [] else AddNode(LinesShow(body[..|body| - 1]), NodeOf(body[|body| - 1]))
  }

  lemma {:induction false} ChainShows(nodes: map<Id, Node>, body: seq<Entry>)
    requires forall i | 0 <= i < |body| :: Carries(nodes, i, body[i])
    ensures Fold(nodes, LegacyIds(|body|)) == LinesShow(body)
  {
    if body != [] {
      var n := |body| - 1;
      assert LegacyIds(n + 1)[..n] == LegacyIds(n);
      forall i | 0 <= i < n ensures Carries(nodes, i, body[..n][i]) { assert body[..n][i] == body[i]; }
      ChainShows(nodes, body[..n]);
      assert Carries(nodes, n, body[n]);
    }
  }

  /**
   A file whose lines have no ids opens as one chain in file order: distinct ids, one entry for each line, each below
   the one before it, and Messages() what the lines come to one after the other.
   */
  lemma LegacyFileIsChain(log: seq<Entry>)
    requires AllLegacy(log)
    ensures ActivePath(Replay(log), LegacyIds(|Body(log)|))
    ensures forall i, j | 0 <= i < j < |Body(log)| :: LegacyIds(|Body(log)|)[i] != LegacyIds(|Body(log)|)[j]
    ensures forall id :: id in Replay(log).nodes <==> id in LegacyIds(|Body(log)|)
    ensures Shows(Replay(log), LinesShow(Body(log)))
  {
    LegacyIsChained(log);
    var n := |Body(log)|;
    forall i, j | 0 <= i < j < n ensures LegacyIds(n)[i] != LegacyIds(n)[j] { LegacyIdsDistinct(i, j); }
    ChainWalks(Replay(log), Body(log));
    ChainShows(Replay(log).nodes, Body(log));
  }

  lemma ChainWalks(s: State, body: seq<Entry>)
    requires Chained(s, body)
    ensures ActivePath(s, LegacyIds(|body|))
  {
    if body != [] {
      LegacyIdsDistinct(|body| - 1, |body| - 1);
      forall i | 0 <= i < |body| ensures Linked(s.nodes, LegacyIds(|body|), i) {
        LegacyIdsDistinct(i, i);
        assert Carries(s.nodes, i, body[i]);
      }
      LinkedWalks(s.nodes, LegacyIds(|body|));
    }
  }

  /** The i-th entry is below the one before it, the first below none. */
  ghost predicate Linked(nodes: map<Id, Node>, p: seq<Id>, i: nat)
    requires i < |p|
  {
    p[i] != "" && p[i] in nodes && nodes[p[i]].parentId == if i == 0 then "" else p[i - 1]
  }

  lemma LinkedWalks(nodes: map<Id, Node>, p: seq<Id>)
    requires p != [] && forall i | 0 <= i < |p| :: Linked(nodes, p, i)
    ensures Walk(nodes, p[|p| - 1], p)
  {
    forall i | 0 <= i < |p| ensures p[i] != "" && p[i] in nodes && nodes[p[i]].parentId == if i == 0 then "" else p[i - 1] {
      assert Linked(nodes, p, i);
    }
    assert Linked(nodes, p, 0);
  }
}
