/** The session object: fields updated in place, one file that only grows. */
module SessionStore {
  import opened Prelude
  import opened SessionModel
  import opened SessionReplay
  import opened SessionTree
  import opened SessionFullTree
  import opened Sorting

  function MetaLine(m: Meta, now: int): Entry { Entry(TYPE_META, "", "", now, EncodeMeta(m), 0) }

  class Session {
    var id: string
    var meta: Meta
    var nodes: map<Id, Node>
    var labels: map<Id, string>
    var leafID: Id
    var legacySeq: nat
    /** The lines of the session file. */
    var file: seq<Entry>

    ghost function Now(): State
      reads this
    {
      State(id, meta, nodes, labels, leafID, legacySeq)
    }

    /** A reload of the file would give exactly the fields held in memory. */
    ghost predicate Synced()
      reads this
    {
      Now() == Replay(file)
    }

    constructor First(newId: string, cwd: string, now: int)
      ensures Now() == State(newId, Meta(newId, cwd, "", now, "", "", 0), map[], map[], "", 0)
      ensures Synced() && WellFormed(Now()) && file == [MetaLine(Meta(newId, cwd, "", now, "", "", 0), now)]
    {
      id, meta := newId, Meta(newId, cwd, "", now, "", "", 0);
      nodes, labels, leafID, legacySeq := map[], map[], "", 0;
      file := [MetaLine(Meta(newId, cwd, "", now, "", "", 0), now)];
      new;
      FirstLine(file[0]);
    }

    /** Making the directory, the file or its first line may fail; then there is no session. */
    static method New(newId: string, cwd: string, now: int, fileOk: bool, writeOk: bool) returns (r: Result<Session>)
      ensures r.Ok? <==> fileOk && writeOk
      ensures r.Ok? ==>
                && fresh(r.value) && r.value.Synced() && WellFormed(r.value.Now())
                && r.value.Now() == State(newId, Meta(newId, cwd, "", now, "", "", 0), map[], map[], "", 0)
                && r.value.file == [MetaLine(Meta(newId, cwd, "", now, "", "", 0), now)]
    {
      if !fileOk { return Err("create session file"); }
      if !writeOk { return Err("write entry"); }
      var s := new Session.First(newId, cwd, now);
      return Ok(s);
    }

    /** A session with no lines read yet, as Open starts from. */
    constructor Blank()
      ensures Now() == EMPTY && file == []
    {
      id, meta, nodes, labels, leafID, legacySeq := "", NO_META, map[], map[], "", 0;
      file := [];
    }

    static method Open(log: seq<Entry>) returns (r: Result<Session>)
      ensures r.Ok? <==> Replay(log).id != ""
      ensures r.Ok? ==> fresh(r.value) && r.value.Now() == Replay(log) && r.value.file == log
    {
      var s := new Session.Blank();
      for i := 0 to |log|
        invariant fresh(s) && s.Now() == Replay(log[..i]) && s.file == []
      {
        s.ReplayLine(log[i]);
        assert log[..i + 1][..i] == log[..i];
      }
      assert log[..|log|] == log;
      if s.id == "" {
        return Err("session file has no metadata");
      }
      s.file := log;
      return Ok(s);
    }

    method ReplayLine(line: Entry)
      modifies this
      ensures Now() == ReplayEntry(old(Now()), line) && file == old(file)
    {
      var entry := line;
      if entry.typ == TYPE_META {
        if entry.data.asMeta.Some? {
          id, meta := entry.data.asMeta.value.id, entry.data.asMeta.value;
        }
        return;
      }
      if entry.id == "" {
        entry := entry.(id := "L" + Digits(legacySeq));
        legacySeq := legacySeq + 1;
        if leafID != "" {
          entry := entry.(parentId := leafID);
        }
      }
      var n := Node(entry.parentId, entry.typ, entry.ts, None, None, 0);
      if entry.typ == TYPE_USER {
        n := n.(message := entry.data.asUser);
      } else if entry.typ == TYPE_ASSISTANT {
        n := n.(message := entry.data.asAssistant);
      } else if entry.typ == TYPE_TOOL_RESULT {
        n := n.(message := entry.data.asToolResult);
      } else if entry.typ == TYPE_COMPACT {
        if entry.data.asCompact.Some? {
          var msgs := ReplayCompactEntries(entry.data.asCompact.value);
          n := n.(compact := if msgs == [] then None else Some(msgs));
        }
        n := n.(tokensBefore := entry.tokensBefore);
      } else if entry.typ == TYPE_CUSTOM_MESSAGE {
        if entry.data.asCustom.Some? {
          var cm := entry.data.asCustom.value;
          n := n.(message := Some(CustomMessageToCore(cm.role, cm.content, entry.ts)));
        }
      } else if entry.typ == TYPE_LABEL {
        if entry.data.asLabel.Some? {
          var ld := entry.data.asLabel.value;
          if ld.tag != "" {
            labels := labels[ld.target := ld.tag];
          } else {
            labels := labels - {ld.target};
          }
        }
      }
      nodes := nodes[entry.id := n];
      leafID := entry.id;
    }

    static method ReplayCompactEntries(entries: seq<SubEntry>) returns (msgs: seq<Message>)
      ensures msgs == ReplayCompact(entries)
    {
      msgs := [];
      for i := 0 to |entries|
        invariant msgs == ReplayCompact(entries[..i])
      {
        var m := DecodeMessage(entries[i].typ, entries[i].data);
        if m.Some? { msgs := msgs + [m.value]; }
        assert entries[..i + 1][..i] == entries[..i];
      }
      assert entries[..|entries|] == entries;
    }

    /** Writes one line; a failed write leaves the file as it was. */
    method AppendEntry(e: Entry, w: World) returns (ok: bool)
      modifies `file
      ensures ok == w.ok && file == old(file) + if w.ok then [e] else []
    {
      if w.ok { file := file + [e]; }
      return w.ok;
    }

    method CommitNode(typ: string, data: Raw, n: Node, w: World) returns (ok: bool)
      modifies this
      ensures ok == w.ok
      ensures !ok ==> Now() == old(Now()) && file == old(file)
      ensures ok ==>
                && Now() == old(Now()).(nodes := old(nodes)[w.id := n.(parentId := old(leafID), ts := w.now)], leaf := w.id)
                && file == old(file) + [Entry(typ, w.id, old(leafID), w.now, data, n.tokensBefore)]
    {
      ok := AppendEntry(Entry(typ, w.id, leafID, w.now, data, n.tokensBefore), w);
      if !ok { return; }
      nodes := nodes[w.id := n.(parentId := leafID, ts := w.now)];
      leafID := w.id;
    }

    method Append(msg: Message, w: World) returns (ok: bool)
      modifies this
      ensures Now() == Live(old(Now()), SessionModel.Append(msg), w)
      ensures file == old(file) + Written(old(Now()), SessionModel.Append(msg), w)
      ensures ok == w.ok
    {
      var typ := MessageEntryType(msg);
      ok := CommitNode(typ, EncodeMessage(msg), Node("", typ, 0, Some(msg), None, 0), w);
    }

    method AppendCompact(msgs: seq<Message>, tokens: int, w: World) returns (ok: bool)
      modifies this
      ensures Now() == Live(old(Now()), SessionModel.AppendCompact(msgs, tokens), w)
      ensures file == old(file) + Written(old(Now()), SessionModel.AppendCompact(msgs, tokens), w)
      ensures ok == w.ok
      ensures ok ==> leafID == w.id && w.id in nodes && nodes[w.id].compact == Some(msgs) && nodes[w.id].tokensBefore == tokens
    {
      var entries: seq<SubEntry> := [];
      for i := 0 to |msgs|
        invariant |entries| == i
        invariant forall j | 0 <= j < i :: entries[j] == SubEntry(MessageEntryType(msgs[j]), EncodeMessage(msgs[j]))
      {
        entries := entries + [SubEntry(MessageEntryType(msgs[i]), EncodeMessage(msgs[i]))];
      }
      assert entries == EncodeCompact(msgs).asCompact.value;
      ok := CommitNode(TYPE_COMPACT, OPAQUE_JSON.(asCompact := Some(entries)),
                       Node("", TYPE_COMPACT, 0, None, Some(msgs), tokens), w);
    }

    method AppendCustom(kind: string, data: Raw, w: World) returns (ok: bool)
      modifies this
      ensures Now() == Live(old(Now()), SessionModel.AppendCustom(kind, data), w)
      ensures file == old(file) + Written(old(Now()), SessionModel.AppendCustom(kind, data), w)
      ensures ok == w.ok
    {
      ok := CommitNode(kind, data, Node("", kind, 0, None, None, 0), w);
    }

    method AppendCustomMessage(role: string, content: string, w: World) returns (ok: bool)
      modifies this
      ensures Now() == Live(old(Now()), SessionModel.AppendCustomMessage(role, content), w)
      ensures file == old(file) + Written(old(Now()), SessionModel.AppendCustomMessage(role, content), w)
      ensures ok == w.ok
      ensures ok ==> leafID in nodes && CustomMessageOf(Some(CustomMessageData(role, content)), w.now, nodes[leafID].message)
    {
      var raw := OPAQUE_JSON.(asCustom := Some(CustomMessageData(role, content)));
      ok := CommitNode(TYPE_CUSTOM_MESSAGE, raw, Node("", TYPE_CUSTOM_MESSAGE, 0, None, None, 0), w);
      if !ok { return; }
      var n := nodes[w.id];
      nodes := nodes[w.id := n.(message := Some(CustomMessageToCore(role, content, n.ts)))];
    }

    method AppendLabel(target: Id, tag: string, w: World) returns (ok: bool)
      modifies this
      ensures Now() == Live(old(Now()), SessionModel.AppendLabel(target, tag), w)
      ensures file == old(file) + Written(old(Now()), SessionModel.AppendLabel(target, tag), w)
      ensures ok <==> target in old(nodes) && w.ok
      ensures if ok then LabelSet(old(labels), target, tag, labels) else labels == old(labels)
    {
      if target !in nodes { return false; }
      var raw := OPAQUE_JSON.(asLabel := Some(LabelData(target, tag)));
      ok := CommitNode(TYPE_LABEL, raw, Node("", TYPE_LABEL, 0, None, None, 0), w);
      if !ok { return; }
      if tag != "" {
        labels := labels[target := tag];
      } else {
        labels := labels - {target};
      }
    }

    method Branch(target: Id, summary: string, w: World) returns (ok: bool)
      modifies this
      ensures Now() == Live(old(Now()), SessionModel.Branch(target, summary), w)
      ensures file == old(file) + Written(old(Now()), SessionModel.Branch(target, summary), w)
      ensures ok <==> target in old(nodes) && w.ok
    {
      if target !in nodes { return false; }
      ok := WriteBranchEntry(target, w);
    }

    method ResetLeaf(w: World) returns (ok: bool)
      modifies this
      ensures Now() == Live(old(Now()), SessionModel.ResetLeaf, w)
      ensures file == old(file) + Written(old(Now()), SessionModel.ResetLeaf, w)
      ensures ok == w.ok
    {
      ok := WriteBranchEntry("", w);
    }

    /** Moves the leaf so that the entry attaches to `parent`, and back if the write fails. */
    method WriteBranchEntry(parent: Id, w: World) returns (ok: bool)
      modifies this
      ensures ok == w.ok
      ensures !ok ==> Now() == old(Now()) && file == old(file)
      ensures ok ==>
                && Now() == old(Now()).(nodes := old(nodes)[w.id := Node(parent, TYPE_BRANCH_SUMMARY, w.now, None, None, 0)], leaf := w.id)
                && file == old(file) + [Entry(TYPE_BRANCH_SUMMARY, w.id, parent, w.now, OPAQUE_JSON, 0)]
    {
      var prevLeaf := leafID;
      leafID := parent;
      ok := CommitNode(TYPE_BRANCH_SUMMARY, OPAQUE_JSON, Node("", TYPE_BRANCH_SUMMARY, 0, None, None, 0), w);
      if !ok { leafID := prevLeaf; }
    }

    method SetTitle(title: string, w: World) returns (ok: bool)
      modifies this
      ensures Now() == Live(old(Now()), SessionModel.SetTitle(title), w)
      ensures file == old(file) + Written(old(Now()), SessionModel.SetTitle(title), w)
      ensures ok == w.ok && meta == old(meta).(title := title)
    {
      meta := meta.(title := title);
      ok := AppendEntry(Entry(TYPE_META, "", "", w.now, EncodeMeta(meta), 0), w);
    }

    method SetModel(model: string, w: World) returns (ok: bool)
      modifies this
      ensures Now() == Live(old(Now()), SessionModel.SetModel(model), w)
      ensures file == old(file) + Written(old(Now()), SessionModel.SetModel(model), w)
      ensures ok == w.ok && meta == old(meta).(model := model)
    {
      meta := meta.(model := model);
      ok := AppendEntry(Entry(TYPE_META, "", "", w.now, EncodeMeta(meta), 0), w);
    }

    // ----- reading -----

    /** The ids from root to leaf; the walk must end, which WellFormed guarantees. */
    method BranchPath() returns (path: seq<Id>)
      requires leafID != "" ==> exists p :: Walk(nodes, leafID, p)
      ensures ActivePath(Now(), path)
    {
      if leafID == "" { return []; }
      ghost var p :| Walk(nodes, leafID, p);
      var rev: seq<Id> := [];
      var current := leafID;
      while current != ""
        invariant |rev| <= |p|
        invariant forall i | 0 <= i < |rev| :: rev[i] == p[|p| - 1 - i]
        invariant current == if |rev| == |p| then "" else p[|p| - 1 - |rev|]
        decreases |p| - |rev|
      {
        rev := rev + [current];
        WalkPrefix(nodes, leafID, p, |p| - |rev|);
        WalkOfRoot(nodes, current, p[..|p| - |rev| + 1]);
        if current !in nodes { break; }
        current := nodes[current].parentId;
      }
      path := Reverse(rev);
      assert path == p;
    }

    static method Reverse(xs: seq<Id>) returns (ys: seq<Id>)
      ensures |ys| == |xs| && forall i | 0 <= i < |xs| :: ys[i] == xs[|xs| - 1 - i]
    {
      ys := xs;
      var i := 0;
      while i < |xs| / 2
        invariant 0 <= i <= |xs| / 2 && |ys| == |xs|
        invariant forall j | 0 <= j < i :: ys[j] == xs[|xs| - 1 - j]
        invariant forall j | 0 <= j < i :: ys[|xs| - 1 - j] == xs[j]
        invariant forall j | i <= j < |xs| - i :: ys[j] == xs[j]
      {
        var k := |xs| - 1 - i;
        var x, y := ys[i], ys[k];
        ys := ys[i := y][k := x];
        i := i + 1;
      }
      forall i | 0 <= i < |xs| ensures ys[i] == xs[|xs| - 1 - i] {
        if i >= |xs| - |xs| / 2 { assert ys[|xs| - 1 - (|xs| - 1 - i)] == xs[|xs| - 1 - i]; }
      }
    }

    /** The messages of the active branch; a compaction restarts the list. */
    method Messages() returns (msgs: seq<Message>)
      requires leafID != "" ==> exists p :: Walk(nodes, leafID, p)
      ensures Shows(Now(), msgs)
    {
      var path := BranchPath();
      msgs := [];
      for i := 0 to |path|
        invariant msgs == Fold(nodes, path[..i])
      {
        if path[i] in nodes {
          var n := nodes[path[i]];
          if n.compact.Some? {
            msgs := n.compact.value;
          } else if n.message.Some? {
            msgs := msgs + [n.message.value];
          }
        }
        assert path[..i + 1][..i] == path[..i];
      }
      assert path[..|path|] == path;
    }

    /**
     A new session holding the first messages of this one's active branch (all of them unless 0 < keep < their number).
     The world of the i-th copied message is worlds(i). The first write that fails is reported; `left` is what the new
     file then holds, and it opens as a session that shows the `copied` messages written before.
     */
    method Fork(keep: int, newId: string, now: int, createOk: bool, metaOk: bool, worlds: nat -> World)
      returns (r: Result<Session>, ghost msgs: seq<Message>, ghost copied: nat, ghost left: seq<Entry>)
      requires leafID != "" ==> exists p :: Walk(nodes, leafID, p)
      requires DistinctIds(worlds)
      ensures Shows(Now(), msgs)
      ensures var limit := ForkPoint(keep, msgs);
              Forked(meta, msgs[..limit], newId, now, createOk, metaOk, Worlds(worlds, limit), r.Ok?, copied, left)
      ensures r.Ok? ==> fresh(r.value) && r.value.Synced() && r.value.file == left
    {
      var all := Messages();
      msgs := all;
      var limit := |all|;
      if keep > 0 && keep < limit { limit := keep; }
      r, copied, left := ForkOf(meta, all[..limit], newId, now, createOk, metaOk, Worlds(worlds, limit));
    }

    static method ForkOf(parent: Meta, msgs: seq<Message>, newId: string, now: int, createOk: bool, metaOk: bool, worlds: seq<World>)
      returns (r: Result<Session>, ghost copied: nat, ghost left: seq<Entry>)
      requires |worlds| == |msgs| && Distinct(worlds)
      ensures Forked(parent, msgs, newId, now, createOk, metaOk, worlds, r.Ok?, copied, left)
      ensures r.Ok? ==> fresh(r.value) && r.value.Synced() && r.value.file == left
    {
      copied, left := 0, [];
      var created := New(newId, parent.cwd, now, createOk, true);
      if created.Err? { return Err(created.error), copied, left; }
      var sess := created.value;
      left := sess.file;
      sess.meta := sess.meta.(model := parent.model, parentId := parent.id, forkPoint := |msgs|);
      var e := MetaLine(sess.meta, now);
      var ok := sess.AppendEntry(e, World("", now, metaOk));
      if !ok { return Err("fork: write metadata"), copied, left; }
      ReplaySnoc(left, e);
      assert ActivePath(sess.Now(), []) && [] == Fold(sess.nodes, []);
      ok, copied := sess.CopyMessages(msgs, worlds);
      left := sess.file;
      if !ok { return Err("fork: append"), copied, left; }
      return Ok(sess), copied, left;
    }

    /** Appends each message in turn to a session that has none; stops at the first failed write. */
    method CopyMessages(msgs: seq<Message>, worlds: seq<World>) returns (ok: bool, copied: nat)
      requires Synced() && WellFormed(Now()) && Shows(Now(), []) && nodes == map[]
      requires |worlds| == |msgs| && Distinct(worlds)
      modifies this
      ensures CopiedUpTo(worlds, copied) && (ok <==> copied == |msgs|)
      ensures Synced() && WellFormed(Now()) && Shows(Now(), msgs[..copied]) && meta == old(meta)
    {
      copied := 0;
      while copied < |msgs|
        invariant copied <= |msgs| && forall j | 0 <= j < copied :: worlds[j].ok
        invariant Synced() && WellFormed(Now()) && Shows(Now(), msgs[..copied]) && meta == old(meta)
        invariant forall j | copied <= j < |worlds| :: worlds[j].id !in nodes
      {
        ok := CopyOne(msgs, worlds, copied);
        if !ok { return; }
        copied := copied + 1;
      }
      ok := true;
    }

    method CopyOne(msgs: seq<Message>, worlds: seq<World>, i: nat) returns (ok: bool)
      requires i < |msgs| == |worlds| && Synced() && WellFormed(Now()) && Shows(Now(), msgs[..i])
      requires FreshId(Now(), worlds[i].id)
      modifies this
      ensures ok == worlds[i].ok && Synced() && WellFormed(Now()) && meta == old(meta)
      ensures Shows(Now(), msgs[..if ok then i + 1 else i])
      ensures nodes.Keys == if ok then old(nodes).Keys + {worlds[i].id} else old(nodes).Keys
    {
      ghost var before, file0 := Now(), file;
      ok := Append(msgs[i], worlds[i]);
      if ok {
        AppendStep(before, file0, msgs[..i], msgs[i], worlds[i]);
        assert msgs[..i + 1] == msgs[..i] + [msgs[i]];
      } else {
        assert file == file0 && Now() == before;
      }
    }

    // ----- FullTree -----

    /** Parents may be missing, as they are when lines of the file could not be read; there must be no cycle. */
    method FullTree() returns (rows: seq<Row>)
      requires Acyclic(nodes) && (leafID != "" ==> leafID in nodes)
      ensures exists a :: ActivePath(Now(), a) && TreeListing(Now(), a, rows)
    {
      assert leafID != "" ==> Traceable(nodes, leafID);
      var kids, roots := GroupByParent();
      var path := BranchPath();
      var active := Ids(path);
      NoEmptyId(nodes);
      kids := SortChildren(kids, active, path);
      ghost var unsorted := roots;
      roots := SortFunc(roots, Older(nodes));
      PermutationLists(nodes, "", unsorted, roots);
      rows := DfsAll(kids, active, roots);
      SearchListsTree(Now(), path, kids, roots, rows);
    }

    /** The children of every entry and the list of roots, in whatever order the map is iterated. */
    method GroupByParent() returns (kids: Kids, roots: seq<Id>)
      ensures ListsAll(nodes, kids) && Lists(nodes, "", roots)
      ensures forall k | k in kids :: k != ""
    {
      kids, roots := map[], [];
      var rest := nodes.Keys;
      while rest != {}
        invariant rest <= nodes.Keys
        invariant forall k | k in kids :: k != ""
        invariant Lists(nodes - rest, "", roots)
        invariant ListsAll(nodes - rest, kids)
      {
        var id :| id in rest;
        var parent := nodes[id].parentId;
        ghost var done := nodes - rest;
        rest := rest - {id};
        if parent == "" {
          ListsSnoc(done, nodes - rest, "", roots, id);
          roots := roots + [id];
          forall k {:trigger KidsOf(kids, k)} | k != "" ensures Lists(nodes - rest, k, KidsOf(kids, k)) {
            assert Lists(done, k, KidsOf(kids, k));
          }
        } else {
          assert Lists(done, parent, KidsOf(kids, parent));
          ListsSnoc(done, nodes - rest, parent, KidsOf(kids, parent), id);
          ghost var before := kids;
          kids := kids[parent := KidsOf(kids, parent) + [id]];
          forall k {:trigger KidsOf(kids, k)} | k != "" ensures Lists(nodes - rest, k, KidsOf(kids, k)) {
            assert Lists(done, k, KidsOf(before, k));
          }
        }
      }
      assert nodes - rest == nodes;
    }

    /** True if id or any descendant is on the active path; p is the walk to id. */
    predicate IsInActiveSubtree(id: Id, active: set<Id>, kids: Kids, ghost p: seq<Id>, ghost a: seq<Id>)
      reads this
      requires "" !in nodes && ListsAll(nodes, kids) && Walk(nodes, id, p) && id in nodes
      requires ActivePath(Now(), a) && active == Ids(a)
      ensures IsInActiveSubtree(id, active, kids, p, a) <==> id in active
      decreases nodes.Keys - Ids(p)
    {
      if id in active then true
      else
        assert Lists(nodes, id, KidsOf(kids, id));
        assert forall kid | kid in KidsOf(kids, id) && kid in a :: false by { InactiveHasNoActiveKid(Now(), a, id); }
        exists kid | kid in KidsOf(kids, id) ::
          WalkDown(nodes, p, kid);
          IsInActiveSubtree(kid, active, kids, p + [kid], a)
    }

    method SortChildren(kids: Kids, active: set<Id>, ghost a: seq<Id>) returns (sorted: Kids)
      requires Acyclic(nodes) && "" !in nodes && ListsAll(nodes, kids) && ActivePath(Now(), a) && active == Ids(a)
      requires forall k | k in kids :: k != ""
      ensures ListsAll(nodes, sorted) && AllSorted(sorted, ActiveThenOlder(nodes, active))
    {
      sorted := kids;
      var rest := kids.Keys;
      while rest != {}
        invariant rest <= kids.Keys == sorted.Keys
        invariant ListsAll(nodes, sorted)
        invariant forall k | k in kids.Keys && k !in rest :: Sorted(sorted[k], ActiveThenOlder(nodes, active))
      {
        var parent :| parent in rest;
        rest := rest - {parent};
        var cs := SortSiblings(sorted, parent, active, a);
        ListsAllSet(nodes, sorted, parent, cs);
        sorted := sorted[parent := cs];
      }
    }

    method SortSiblings(kids: Kids, parent: Id, active: set<Id>, ghost a: seq<Id>) returns (cs: seq<Id>)
      requires Acyclic(nodes) && "" !in nodes && ListsAll(nodes, kids) && ActivePath(Now(), a) && active == Ids(a)
      requires parent in kids && parent != ""
      ensures Lists(nodes, parent, cs) && Sorted(cs, ActiveThenOlder(nodes, active))
    {
      assert Lists(nodes, parent, KidsOf(kids, parent));
      var hot := set kid | kid in kids[parent] && InSubtreeOf(kid, active, kids, a);
      assert hot == set kid | kid in kids[parent] && kid in active;
      cs := SortFunc(kids[parent], ActiveThenOlder(nodes, hot));
      PermutationLists(nodes, parent, kids[parent], cs);
      HotIsActive(nodes, active, hot, kids[parent], cs);
    }

    /** IsInActiveSubtree with the path to the entry supplied. */
    predicate InSubtreeOf(kid: Id, active: set<Id>, kids: Kids, ghost a: seq<Id>)
      reads this
      requires Acyclic(nodes) && "" !in nodes && ListsAll(nodes, kids) && kid in nodes
      requires ActivePath(Now(), a) && active == Ids(a)
      ensures InSubtreeOf(kid, active, kids, a) <==> kid in active
    {
      assert Traceable(nodes, kid);
      ghost var p :| Walk(nodes, kid, p);
      IsInActiveSubtree(kid, active, kids, p, a)
    }

    method DfsAll(kids: Kids, active: set<Id>, roots: seq<Id>) returns (rows: seq<Row>)
      requires "" !in nodes && ListsAll(nodes, kids) && AreChildren(nodes, "", roots)
      ensures Renders(Now(), active, kids, Forest(nodes, kids, [], roots), rows)
    {
      rows := DfsEach(kids, active, roots, 0, []);
    }

    method DfsEach(kids: Kids, active: set<Id>, cs: seq<Id>, depth: nat, ghost p: seq<Id>) returns (rows: seq<Row>)
      requires ListsAll(nodes, kids) && Path(nodes, p) && AreChildren(nodes, Last(p), cs) && depth == |p|
      ensures Renders(Now(), active, kids, Forest(nodes, kids, p, cs), rows)
      decreases nodes.Keys - Ids(p), 0, |cs|
    {
      if cs == [] { return []; }
      PathSnoc(nodes, p, cs[0]);
      var first := Dfs(kids, active, cs[0], depth, p + [cs[0]]);
      var others := DfsEach(kids, active, cs[1..], depth, p);
      RendersConcat(Now(), active, kids, Preorder(nodes, kids, p + [cs[0]]), first, Forest(nodes, kids, p, cs[1..]), others);
      return first + others;
    }

    method Dfs(kids: Kids, active: set<Id>, id: Id, depth: nat, ghost p: seq<Id>) returns (rows: seq<Row>)
      requires "" !in nodes && ListsAll(nodes, kids) && Path(nodes, p) && p != [] && id == Last(p) && id in nodes && depth == |p| - 1
      ensures Renders(Now(), active, kids, Preorder(nodes, kids, p), rows)
      decreases nodes.Keys - Ids(p), 1, 0
    {
      var n := nodes[id];
      var row := Row(id, n.parentId, n.typ, n.ts, |KidsOf(kids, id)|, id in active, depth,
                     if id in labels then labels[id] else "", n.tokensBefore);
      assert Lists(nodes, id, KidsOf(kids, id));
      var below := DfsEach(kids, active, KidsOf(kids, id), depth + 1, p);
      RendersConcat(Now(), active, kids, [p], [row], Forest(nodes, kids, p, KidsOf(kids, id)), below);
      return [row] + below;
    }
  }

  /** How many messages a fork is to hold. */
  function ForkPoint(keep: int, msgs: seq<Message>): nat { if 0 < keep < |msgs| then keep else |msgs| }

  ghost predicate DistinctIds(worlds: nat -> World) {
    && (forall i: nat :: worlds(i).id != "")
    && (forall i: nat, j: nat | i < j :: worlds(i).id != worlds(j).id)
  }

  function Worlds(worlds: nat -> World, n: nat): (ws: seq<World>)
    ensures |ws| == n && forall i | 0 <= i < n :: ws[i] == worlds(i)
  {
    seq(n, i requires 0 <= i => worlds(i))
  }

  ghost predicate Distinct(worlds: seq<World>) {
    && (forall i | 0 <= i < |worlds| :: worlds[i].id != "")
    && (forall i, j | 0 <= i < j < |worlds| :: worlds[i].id != worlds[j].id)
  }

  /** The first n writes succeed and the next, if there is one, fails. */
  predicate CopiedUpTo(worlds: seq<World>, n: nat) {
    n <= |worlds| && (forall i | 0 <= i < n :: worlds[i].ok) && (n < |worlds| ==> !worlds[n].ok)
  }

  /**
   How a fork that is to hold these messages ends: whether it succeeds, and what its file holds. If a message could not
   be written, the file opens as a session that shows those written before.
   */
  ghost predicate Forked(parent: Meta, msgs: seq<Message>, newId: string, now: int, createOk: bool, metaOk: bool,
                         worlds: seq<World>, ok: bool, copied: nat, left: seq<Entry>)
  {
    if !createOk then !ok && left == []
    else if !metaOk then !ok && left == [MetaLine(Meta(newId, parent.cwd, "", now, "", "", 0), now)]
    else
      && CopiedUpTo(worlds, copied) && copied <= |msgs| && (ok <==> copied == |msgs|)
      && WellFormed(Replay(left)) && Shows(Replay(left), msgs[..copied])
      && Replay(left).meta == Meta(newId, parent.cwd, parent.model, now, "", parent.id, |msgs|)
  }

  /** A file of one metadata line denotes a session without entries. */
  lemma FirstLine(e: Entry)
    requires e.typ == TYPE_META && e.data.asMeta.Some?
    ensures var m := e.data.asMeta.value;
            Replay([e]) == State(m.id, m, map[], map[], "", 0) && WellFormed(Replay([e]))
  {
    ReplaySnoc([], e);
    assert [] + [e] == [e];
  }

  lemma AppendStep(s: State, log: seq<Entry>, msgs: seq<Message>, msg: Message, w: World)
    requires s == Replay(log) && WellFormed(s) && Shows(s, msgs) && FreshId(s, w.id) && w.ok
    ensures var op := SessionModel.Append(msg);
            && Live(s, op, w) == Replay(log + Written(s, op, w))
            && WellFormed(Live(s, op, w)) && Shows(Live(s, op, w), msgs + [msg])
            && Live(s, op, w).nodes.Keys == s.nodes.Keys + {w.id}
  {
    var op := SessionModel.Append(msg);
    StepAgreesIff(s, op, w, log);
    LiveKeepsWellFormed(s, op, w);
    LiveShows(s, op, w, msgs);
  }

  /** Among these siblings the same ones come first, whether they are active or lead to an active entry. */
  lemma HotIsActive(nodes: map<Id, Node>, active: set<Id>, hot: set<Id>, xs: seq<Id>, cs: seq<Id>)
    requires hot == (set kid | kid in xs && kid in active) && (forall c :: c in cs <==> c in xs)
    requires Sorted(cs, ActiveThenOlder(nodes, hot))
    ensures Sorted(cs, ActiveThenOlder(nodes, active))
  {
    forall i, j | 0 <= i < j < |cs| ensures ActiveThenOlder(nodes, active)(cs[i], cs[j]) {
      assert cs[i] in cs && cs[j] in cs;
    }
  }

  lemma ListsAllSet(nodes: map<Id, Node>, kids: Kids, parent: Id, cs: seq<Id>)
    requires ListsAll(nodes, kids) && Lists(nodes, parent, cs)
    ensures ListsAll(nodes, kids[parent := cs])
  {
    forall k {:trigger KidsOf(kids[parent := cs], k)} | k != "" ensures Lists(nodes, k, KidsOf(kids[parent := cs], k)) {
      assert Lists(nodes, k, KidsOf(kids, k));
    }
  }

  lemma PermutationLists(nodes: map<Id, Node>, parent: Id, xs: seq<Id>, ys: seq<Id>)
    requires Lists(nodes, parent, xs) && multiset(ys) == multiset(xs)
    ensures Lists(nodes, parent, ys)
  {
    forall c ensures c in ys <==> c in xs {
      assert c in ys <==> c in multiset(ys);
      assert c in xs <==> c in multiset(xs);
    }
    forall i, j | 0 <= i < j < |ys| ensures ys[i] != ys[j] {
      if ys[i] == ys[j] {
        TwiceCounts(ys, i, j);
        AtMostOnce(xs, ys[i]);
        assert false;
      }
    }
  }

  lemma TwiceCounts(ys: seq<Id>, i: nat, j: nat)
    requires i < j < |ys| && ys[i] == ys[j]
    ensures multiset(ys)[ys[i]] >= 2
  {
    assert ys == ys[..j] + [ys[j]] + ys[j + 1..];
    assert ys[i] in ys[..j];
  }

  lemma {:induction false} AtMostOnce(xs: seq<Id>, x: Id)
    requires NoDup(xs)
    ensures multiset(xs)[x] <= 1
  {
    if xs != [] {
      var n := |xs| - 1;
      AtMostOnce(xs[..n], x);
      assert xs == xs[..n] + [xs[n]];
      if x == xs[n] { assert x !in xs[..n]; }
    }
  }

  lemma ListsSnoc(before: map<Id, Node>, after: map<Id, Node>, parent: Id, cs: seq<Id>, id: Id)
    requires Lists(before, parent, cs) && id !in before && id in after && after[id].parentId == parent
    requires forall x | x != id :: x in after <==> x in before
    requires forall x | x in before :: after[x] == before[x]
    ensures Lists(after, parent, cs + [id])
  {
    assert id !in cs;
  }

  lemma InactiveHasNoActiveKid(s: State, a: seq<Id>, id: Id)
    requires ActivePath(s, a) && id != "" && id !in a
    ensures forall kid | kid in a && kid in s.nodes :: s.nodes[kid].parentId != id
  {
    forall kid | kid in a && kid in s.nodes ensures s.nodes[kid].parentId != id {
      var k :| 0 <= k < |a| && a[k] == kid;
      if k > 0 { assert a[k - 1] in a; }
    }
  }

  /** A walk continues to any child of its last entry. */
  lemma WalkDown(nodes: map<Id, Node>, p: seq<Id>, kid: Id)
    requires p != [] && Walk(nodes, p[|p| - 1], p) && "" !in nodes && kid in nodes && nodes[kid].parentId == p[|p| - 1]
    ensures Walk(nodes, kid, p + [kid]) && nodes.Keys - Ids(p + [kid]) < nodes.Keys - Ids(p)
  {
    WalkDistinct(nodes, kid, p + [kid]);
    forall i | 0 <= i < |p| ensures p[i] != kid {
      assert (p + [kid])[i] == p[i] && (p + [kid])[|p|] == kid;
    }
    assert kid in nodes.Keys - Ids(p) && kid in p + [kid];
  }
}
