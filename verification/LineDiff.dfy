/** The line diff behind edit summaries: the LCS table and the greedy walk over it. */
module LineDiff {
  import opened Subsequences

  datatype DiffMeta = DiffMeta(added: nat, removed: nat, files: nat, hunks: nat)

  function Max(x: nat, y: nat): nat { if x >= y then x else y }

  /** The recurrence the table is filled by: entry (i, j) for the suffixes a[i..] and b[j..]. */
  function Lcs(a: seq<string>, b: seq<string>, i: nat, j: nat): nat
    requires i <= |a| && j <= |b|
    decreases |a| - i + |b| - j
  {
    if i == |a| || j == |b| then 0
    else if a[i] == b[j] then Lcs(a, b, i + 1, j + 1) + 1
    else Max(Lcs(a, b, i + 1, j), Lcs(a, b, i, j + 1))
  }

  // ----- the recurrence computes the longest common subsequence -----

  ghost predicate Common(c: seq<string>, a: seq<string>, b: seq<string>) { Subseq(c, a) && Subseq(c, b) }

  lemma {:induction false} LcsIsUpperBound(c: seq<string>, a: seq<string>, b: seq<string>, i: nat, j: nat)
    requires i <= |a| && j <= |b| && Common(c, a[i..], b[j..])
    ensures |c| <= Lcs(a, b, i, j)
    decreases |a| - i + |b| - j
  {
    if c != [] {
      SubseqUncons(c, a[i..]);
      SubseqUncons(c, b[j..]);
      assert a[i..][1..] == a[i + 1..] && b[j..][1..] == b[j + 1..];
      if a[i] == b[j] {
        LcsIsUpperBound(c[1..], a, b, i + 1, j + 1);
      } else if c[0] != a[i] {
        LcsIsUpperBound(c, a, b, i + 1, j);
      } else {
        LcsIsUpperBound(c, a, b, i, j + 1);
      }
    }
  }

  lemma {:induction false} LcsIsAttained(a: seq<string>, b: seq<string>, i: nat, j: nat) returns (c: seq<string>)
    requires i <= |a| && j <= |b|
    ensures Common(c, a[i..], b[j..]) && |c| == Lcs(a, b, i, j)
    decreases |a| - i + |b| - j
  {
    if i == |a| || j == |b| {
      c := [];
    } else if a[i] == b[j] {
      var rest := LcsIsAttained(a, b, i + 1, j + 1);
      c := [a[i]] + rest;
      SubseqConsKeep(rest, a[i], a[i + 1..]);
      SubseqConsKeep(rest, b[j], b[j + 1..]);
      assert a[i..] == [a[i]] + a[i + 1..] && b[j..] == [b[j]] + b[j + 1..];
    } else if Lcs(a, b, i + 1, j) >= Lcs(a, b, i, j + 1) {
      c := LcsIsAttained(a, b, i + 1, j);
      SubseqConsSkip(c, a[i], a[i + 1..]);
      assert a[i..] == [a[i]] + a[i + 1..];
    } else {
      c := LcsIsAttained(a, b, i, j + 1);
      SubseqConsSkip(c, b[j], b[j + 1..]);
      assert b[j..] == [b[j]] + b[j + 1..];
    }
  }

  // ----- the table -----

  ghost predicate RowDone(t: array2<int>, a: seq<string>, b: seq<string>, i: nat, from: int)
    requires i <= |a| && t.Length0 == |a| + 1 && t.Length1 == |b| + 1
    reads t
  {
    forall j | 0 <= j <= |b| && from <= j :: t[i, j] == Lcs(a, b, i, j)
  }

  method LcsTable(a: seq<string>, b: seq<string>) returns (t: array2<int>)
    ensures fresh(t) && t.Length0 == |a| + 1 && t.Length1 == |b| + 1
    ensures forall i, j | 0 <= i <= |a| && 0 <= j <= |b| :: t[i, j] == Lcs(a, b, i, j)
  {
    t := new int[|a| + 1, |b| + 1]((_, _) => 0);
    var i := |a| - 1;
    assert RowDone(t, a, b, |a|, 0);
    while i >= 0
      invariant -1 <= i < |a|
      invariant forall k | 0 <= k <= i :: t[k, |b|] == 0
      invariant forall k | i < k <= |a| :: RowDone(t, a, b, k, 0)
    {
      assert RowDone(t, a, b, i + 1, 0);
      label before:
      FillRow(t, a, b, i);
      forall k | i < k <= |a| ensures RowDone(t, a, b, k, 0) {
        assert old@before(RowDone(t, a, b, k, 0));
      }
      i := i - 1;
    }
    forall k, j | 0 <= k <= |a| && 0 <= j <= |b| ensures t[k, j] == Lcs(a, b, k, j) {
      assert RowDone(t, a, b, k, 0);
    }
  }

  /** The inner loop: row i from the row below it. */
  method FillRow(t: array2<int>, a: seq<string>, b: seq<string>, i: nat)
    requires i < |a| && t.Length0 == |a| + 1 && t.Length1 == |b| + 1
    requires RowDone(t, a, b, i + 1, 0) && t[i, |b|] == 0
    modifies t
    ensures RowDone(t, a, b, i, 0)
    ensures forall k, j | 0 <= k <= |a| && 0 <= j <= |b| && k != i :: t[k, j] == old(t[k, j])
  {
    var j := |b| - 1;
    while j >= 0
      invariant -1 <= j < |b|
      invariant RowDone(t, a, b, i, j + 1)
      invariant forall k, m | 0 <= k <= |a| && 0 <= m <= |b| && k != i :: t[k, m] == old(t[k, m])
    {
      if a[i] == b[j] {
        t[i, j] := t[i + 1, j + 1] + 1;
      } else if t[i + 1, j] >= t[i, j + 1] {
        t[i, j] := t[i + 1, j];
      } else {
        t[i, j] := t[i, j + 1];
      }
      j := j - 1;
    }
  }

  // ----- edit scripts -----

  datatype Edit = Keep | Insert | Delete

  /** Following the script line by line turns the rest of a, from i, into the rest of b, from j. */
  predicate Transforms(script: seq<Edit>, a: seq<string>, b: seq<string>, i: nat, j: nat)
    requires i <= |a| && j <= |b|
    decreases |script|
  {
    if script == [] then i == |a| && j == |b|
    else
      match script[0]
      case Keep => i < |a| && j < |b| && a[i] == b[j] && Transforms(script[1..], a, b, i + 1, j + 1)
      case Insert => j < |b| && Transforms(script[1..], a, b, i, j + 1)
      case Delete => i < |a| && Transforms(script[1..], a, b, i + 1, j)
  }

  function Count(script: seq<Edit>, e: Edit): nat {
    if script == [] then 0 else Count(script[1..], e) + if script[0] == e then 1 else 0
  }

  /** The number of maximal runs of changes, given whether a run is already under way. */
  function RunsFrom(inRun: bool, script: seq<Edit>): nat
    decreases script
  {
    if script == [] then 0
    else if script[0] == Keep then RunsFrom(false, script[1..])
    else RunsFrom(true, script[1..]) + if inRun then 0 else 1
  }

  function Runs(script: seq<Edit>): nat { RunsFrom(false, script) }

  /** Position k begins a maximal run of changes. */
  predicate StartsRun(inRun: bool, script: seq<Edit>, k: nat)
    requires k < |script|
  {
    script[k] != Keep && (if k == 0 then !inRun else script[k - 1] == Keep)
  }

  function RunStarts(inRun: bool, script: seq<Edit>): set<nat> {
    set k: nat | k < |script| && StartsRun(inRun, script, k)
  }

  /** The running count is the number of maximal runs. */
  lemma {:induction false} RunsAreMaximal(inRun: bool, script: seq<Edit>)
    ensures RunsFrom(inRun, script) == |RunStarts(inRun, script)|
    decreases script
  {
    if script != [] {
      var tail, now := script[1..], script[0] != Keep;
      RunsAreMaximal(now, tail);
      var all, later := RunStarts(inRun, script), RunStarts(now, tail);
      var shifted := all - {0};
      LaterStarts(inRun, script);
      ShiftedSize(later, shifted);
      assert all == shifted + (if now && !inRun then {0} else {});
    }
  }

  /** Runs that begin after the first edit are those of the rest, one further on. */
  lemma LaterStarts(inRun: bool, script: seq<Edit>)
    requires script != []
    ensures forall k: nat ::
              k in RunStarts(inRun, script) - {0} <==> k > 0 && k - 1 in RunStarts(script[0] != Keep, script[1..])
  {
    forall k: nat
      ensures k in RunStarts(inRun, script) - {0} <==> k > 0 && k - 1 in RunStarts(script[0] != Keep, script[1..])
    {
      if 0 < k < |script| {
        assert StartsRun(inRun, script, k) <==> StartsRun(script[0] != Keep, script[1..], k - 1);
      }
    }
  }

  lemma {:induction false} ShiftedSize(s: set<nat>, t: set<nat>)
    requires forall y: nat :: y in t <==> y > 0 && y - 1 in s
    ensures |t| == |s|
  {
    forall x: nat ensures x in s ==> x + 1 in t {}
    if t != {} {
      var y :| y in t;
      ShiftedSize(s - {y - 1}, t - {y});
    } else {
      assert s == {};
    }
  }

  lemma LcsMonotone(a: seq<string>, b: seq<string>, i: nat, j: nat)
    requires i <= |a| && j <= |b|
    ensures j < |b| ==> Lcs(a, b, i, j + 1) <= Lcs(a, b, i, j)
    ensures i < |a| ==> Lcs(a, b, i + 1, j) <= Lcs(a, b, i, j)
  {
    if j < |b| {
      var c := LcsIsAttained(a, b, i, j + 1);
      SubseqConsSkip(c, b[j], b[j + 1..]);
      assert b[j..] == [b[j]] + b[j + 1..];
      LcsIsUpperBound(c, a, b, i, j);
    }
    if i < |a| {
      var c := LcsIsAttained(a, b, i + 1, j);
      SubseqConsSkip(c, a[i], a[i + 1..]);
      assert a[i..] == [a[i]] + a[i + 1..];
      LcsIsUpperBound(c, a, b, i, j);
    }
  }

  /** Any script keeps no more lines than the LCS has, so it makes at least the remaining changes. */
  lemma {:induction false} ScriptLowerBound(script: seq<Edit>, a: seq<string>, b: seq<string>, i: nat, j: nat)
    requires i <= |a| && j <= |b| && Transforms(script, a, b, i, j)
    ensures Count(script, Keep) + Count(script, Delete) == |a| - i
    ensures Count(script, Keep) + Count(script, Insert) == |b| - j
    ensures Count(script, Keep) <= Lcs(a, b, i, j)
    decreases |script|
  {
    if script != [] {
      LcsMonotone(a, b, i, j);
      match script[0]
      case Keep => ScriptLowerBound(script[1..], a, b, i + 1, j + 1);
      case Insert => ScriptLowerBound(script[1..], a, b, i, j + 1);
      case Delete => ScriptLowerBound(script[1..], a, b, i + 1, j);
    }
  }

  /** The script the walk follows: keep equal heads, otherwise take the side with the longer remaining LCS, insertions first. */
  function Walk(a: seq<string>, b: seq<string>, i: nat, j: nat): seq<Edit>
    requires i <= |a| && j <= |b|
    decreases |a| - i + |b| - j
  {
    if i == |a| && j == |b| then []
    else if i < |a| && j < |b| && a[i] == b[j] then [Keep] + Walk(a, b, i + 1, j + 1)
    else if j < |b| && (i == |a| || Lcs(a, b, i, j + 1) >= Lcs(a, b, i + 1, j)) then [Insert] + Walk(a, b, i, j + 1)
    else [Delete] + Walk(a, b, i + 1, j)
  }

  lemma {:induction false} WalkTransforms(a: seq<string>, b: seq<string>, i: nat, j: nat)
    requires i <= |a| && j <= |b|
    ensures Transforms(Walk(a, b, i, j), a, b, i, j) && Count(Walk(a, b, i, j), Keep) == Lcs(a, b, i, j)
    decreases |a| - i + |b| - j
  {
    if i < |a| && j < |b| && a[i] == b[j] {
      WalkTransforms(a, b, i + 1, j + 1);
    } else if j < |b| && (i == |a| || Lcs(a, b, i, j + 1) >= Lcs(a, b, i + 1, j)) {
      WalkTransforms(a, b, i, j + 1);
    } else if i < |a| {
      WalkTransforms(a, b, i + 1, j);
    }
  }

  /** No script from a to b makes fewer insertions or fewer deletions than the walk. */
  lemma WalkIsMinimal(script: seq<Edit>, a: seq<string>, b: seq<string>)
    requires Transforms(script, a, b, 0, 0)
    ensures Transforms(Walk(a, b, 0, 0), a, b, 0, 0)
    ensures Count(Walk(a, b, 0, 0), Insert) <= Count(script, Insert)
    ensures Count(Walk(a, b, 0, 0), Delete) <= Count(script, Delete)
  {
    WalkTransforms(a, b, 0, 0);
    ScriptLowerBound(Walk(a, b, 0, 0), a, b, 0, 0);
    ScriptLowerBound(script, a, b, 0, 0);
  }

  lemma {:induction false} RunsBounded(inRun: bool, script: seq<Edit>)
    ensures RunsFrom(inRun, script) <= Count(script, Keep) + if inRun then 0 else 1
    ensures !inRun ==> (RunsFrom(inRun, script) == 0 <==> Count(script, Insert) + Count(script, Delete) == 0)
    decreases script
  {
    if script != [] {
      RunsBounded(script[0] != Keep, script[1..]);
    }
  }

  method DiffLines(a: seq<string>, b: seq<string>) returns (added: nat, removed: nat, hunks: nat)
    ensures removed == |a| - Lcs(a, b, 0, 0) && added == |b| - Lcs(a, b, 0, 0)
    ensures hunks == Runs(Walk(a, b, 0, 0)) && hunks <= Lcs(a, b, 0, 0) + 1
  {
    var lcs := LcsTable(a, b);
    var i, j := 0, 0;
    var inHunk := false;
    added, removed, hunks := 0, 0, 0;
    ghost var all := Walk(a, b, 0, 0);
    while i < |a| || j < |b|
      invariant i <= |a| && j <= |b|
      invariant added + Count(Walk(a, b, i, j), Insert) == Count(all, Insert)
      invariant removed + Count(Walk(a, b, i, j), Delete) == Count(all, Delete)
      invariant hunks + RunsFrom(inHunk, Walk(a, b, i, j)) == Runs(all)
      decreases |a| - i + |b| - j
    {
      if i < |a| && j < |b| && a[i] == b[j] {
        i, j := i + 1, j + 1;
        inHunk := false;
      } else if j < |b| && (i >= |a| || lcs[i, j + 1] >= lcs[i + 1, j]) {
        added := added + 1;
        j := j + 1;
        if !inHunk { hunks := hunks + 1; inHunk := true; }
      } else {
        removed := removed + 1;
        i := i + 1;
        if !inHunk { hunks := hunks + 1; inHunk := true; }
      }
    }
    WalkTransforms(a, b, 0, 0);
    ScriptLowerBound(all, a, b, 0, 0);
    RunsBounded(false, all);
  }

  // ----- texts -----

  /** strings.Split(s, "\n"). */
  function Split(s: string): (r: seq<string>)
    ensures |r| > 0
  {
    if s == [] then [""]
    else
      var rest := Split(s[1..]);
      if s[0] == '\n' then [""] + rest else [[s[0]] + rest[0]] + rest[1..]
  }

  function SplitLines(s: string): seq<string> { if s == "" then [] else Split(s) }

  function Join(lines: seq<string>): string {
    if lines == [] then "" else if |lines| == 1 then lines[0] else lines[0] + "\n" + Join(lines[1..])
  }

  lemma {:induction false} JoinSplit(s: string)
    ensures Join(Split(s)) == s
  {
    if s != [] {
      var rest := Split(s[1..]);
      JoinSplit(s[1..]);
      assert s == [s[0]] + s[1..];
      if s[0] == '\n' {
        assert ([""] + rest)[1..] == rest;
      } else {
        var lines := [[s[0]] + rest[0]] + rest[1..];
        assert lines[1..] == rest[1..];
      }
    }
  }

  /** Lines: at least one, none with a newline in it. */
  ghost predicate AreLines(lines: seq<string>) {
    lines != [] && forall i | 0 <= i < |lines| :: '\n' !in lines[i]
  }

  lemma {:induction false} SplitAreLines(s: string)
    ensures AreLines(Split(s)) && |Split(s)| == 1 + multiset(s)['\n']
  {
    if s != [] {
      SplitAreLines(s[1..]);
      assert s == [s[0]] + s[1..];
    }
  }

  /** Joining puts a newline between the first line and the rest. */
  lemma JoinFirst(lines: seq<string>)
    requires |lines| > 1
    ensures Join(lines) == lines[0] + "\n" + Join(lines[1..])
  {}

  /** A line in front ends at the first newline. */
  lemma {:induction false} SplitLine(line: string, rest: string)
    requires '\n' !in line
    ensures Split(line) == [line]
    ensures Split(line + "\n" + rest) == [line] + Split(rest)
  {
    var s := line + "\n" + rest;
    if line == "" {
      assert s[1..] == rest;
    } else {
      SplitLine(line[1..], rest);
      assert s[1..] == line[1..] + "\n" + rest;
      assert [line[0]] + line[1..] == line;
      assert ([line[1..]] + Split(rest))[1..] == Split(rest);
    }
  }

  /** Splitting and joining are inverse to each other: a text has only one list of lines. */
  lemma {:induction false} LinesIff(s: string, lines: seq<string>)
    ensures AreLines(lines) && Join(lines) == s <==> lines == Split(s)
    decreases |lines|
  {
    JoinSplit(s);
    SplitAreLines(s);
    if AreLines(lines) && Join(lines) == s {
      if |lines| == 1 {
        SplitLine(lines[0], "");
      } else {
        JoinFirst(lines);
        assert forall i | 0 <= i < |lines[1..]| :: lines[1..][i] == lines[i + 1];
        LinesIff(Join(lines[1..]), lines[1..]);
        SplitLine(lines[0], Join(lines[1..]));
      }
    }
  }

  /** The lines of a text; the empty text has none. */
  ghost predicate LinesOf(s: string, lines: seq<string>) {
    if s == "" then lines == [] else AreLines(lines) && Join(lines) == s
  }

  lemma SplitLinesIff(s: string, lines: seq<string>)
    ensures LinesOf(s, lines) <==> lines == SplitLines(s)
  {
    LinesIff(s, lines);
  }

  lemma SplitLinesInjective(s: string, t: string)
    requires SplitLines(s) == SplitLines(t)
    ensures s == t
  {
    JoinSplit(s);
    JoinSplit(t);
  }

  /** The LCS covers both sides exactly when they are equal. */
  lemma FullLcsIff(a: seq<string>, b: seq<string>)
    ensures |a| == Lcs(a, b, 0, 0) == |b| <==> a == b
  {
    assert a[0..] == a && b[0..] == b;
    var c := LcsIsAttained(a, b, 0, 0);
    SubseqLength(c, a);
    SubseqLength(c, b);
    if a == b {
      SubseqRefl(a);
      LcsIsUpperBound(a, a, b, 0, 0);
    }
  }

  /** A diff without changes means equal texts, and the other way round. */
  method ComputeDiffMeta(before: string, after: string) returns (m: DiffMeta)
    ensures forall a, b | LinesOf(before, a) && LinesOf(after, b) ::
              && m.added == |b| - Lcs(a, b, 0, 0) && m.removed == |a| - Lcs(a, b, 0, 0)
              && m.files == 1 && m.hunks == Runs(Walk(a, b, 0, 0))
    ensures m.added == 0 && m.removed == 0 <==> before == after
    ensures m.hunks == 0 <==> before == after
  {
    var a, b := SplitLines(before), SplitLines(after);
    var added, removed, hunks := DiffLines(a, b);
    m := DiffMeta(added, removed, 1, hunks);
    WalkTransforms(a, b, 0, 0);
    ScriptLowerBound(Walk(a, b, 0, 0), a, b, 0, 0);
    RunsBounded(false, Walk(a, b, 0, 0));
    FullLcsIff(a, b);
    if a == b { SplitLinesInjective(before, after); }
    forall x, y | LinesOf(before, x) && LinesOf(after, y) ensures x == a && y == b {
      SplitLinesIff(before, x);
      SplitLinesIff(after, y);
    }
  }
}
