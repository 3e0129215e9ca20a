/** The edit tool: find one occurrence, exactly or up to quote style, and replace it in the file's own style. */
module EditTool {
  import opened Prelude
  import LineDiff

  // ----- quotes -----

  const LEFT_SINGLE := '\U{2018}'
  const RIGHT_SINGLE := '\U{2019}'
  const LEFT_DOUBLE := '\U{201C}'
  const RIGHT_DOUBLE := '\U{201D}'
  const PRIME := '\U{2032}'
  const DOUBLE_PRIME := '\U{2033}'

  predicate Curly(c: char) {
    c == LEFT_SINGLE || c == RIGHT_SINGLE || c == LEFT_DOUBLE || c == RIGHT_DOUBLE || c == PRIME || c == DOUBLE_PRIME
  }

  function Straight(c: char): char {
    if c == LEFT_SINGLE || c == RIGHT_SINGLE || c == PRIME then '\''
    else if c == LEFT_DOUBLE || c == RIGHT_DOUBLE || c == DOUBLE_PRIME then '"'
    else c
  }

  function NormalizeStraight(s: string): (r: string)
    ensures |r| == |s| && forall i | 0 <= i < |s| :: r[i] == Straight(s[i])
  {
    seq(|s|, i requires 0 <= i < |s| => Straight(s[i]))
  }

  /** Single quotes and primes become an apostrophe, double ones a double quote, and nothing else changes. */
  lemma StraightTable(s: string, i: nat)
    requires i < |s|
    ensures var c := NormalizeStraight(s)[i];
            && (s[i] in "\U{2018}\U{2019}\U{2032}" ==> c == '\'')
            && (s[i] in "\U{201C}\U{201D}\U{2033}" ==> c == '"')
            && (s[i] !in "\U{2018}\U{2019}\U{2032}\U{201C}\U{201D}\U{2033}" ==> c == s[i])
            && (Curly(s[i]) <==> c != s[i])
  {}

  // ----- occurrences -----

  predicate Occurs(content: string, search: string, i: int) {
    0 <= i <= |content| - |search| && content[i..i + |search|] == search
  }

  /** strings.Count for a nonempty search: occurrences from position i on, left to right, skipping each one found. */
  function CountFrom(content: string, search: string, i: nat): nat
    requires search != ""
    decreases |content| - i
  {
    if i + |search| > |content| then 0
    else if Occurs(content, search, i) then 1 + CountFrom(content, search, i + |search|)
    else CountFrom(content, search, i + 1)
  }

  function Count(content: string, search: string): nat
    requires search != ""
  {
    CountFrom(content, search, 0)
  }

  /** strings.Index from position i on; -1 if there is none. */
  function IndexFrom(content: string, search: string, i: nat): int
    requires search != ""
    decreases |content| - i
  {
    if i + |search| > |content| then -1
    else if Occurs(content, search, i) then i
    else IndexFrom(content, search, i + 1)
  }

  /** strings.Replace(content, search, replacement, 1). */
  function ReplaceFirst(content: string, search: string, replacement: string): string
    requires search != ""
  {
    var p := IndexFrom(content, search, 0);
    if p < 0 || p + |search| > |content| then content else content[..p] + replacement + content[p + |search|..]
  }

  // ----- what counting means -----

  /** Occurrences that do not overlap, in order, none before position `from`. */
  predicate Disjoint(content: string, search: string, from: int, ps: seq<int>) {
    && (forall k | 0 <= k < |ps| :: Occurs(content, search, ps[k]) && from <= ps[k])
    && (forall k | 0 < k < |ps| :: ps[k - 1] + |search| <= ps[k])
  }

  /** The greedy count is the largest number of pairwise disjoint occurrences. */
  lemma {:induction false} CountIsLargest(content: string, search: string, i: nat, ps: seq<int>)
    requires search != "" && Disjoint(content, search, i, ps)
    ensures |ps| <= CountFrom(content, search, i)
    decreases |content| - i
  {
    if ps != [] {
      assert Occurs(content, search, ps[0]);
      if Occurs(content, search, i) {
        var rest := ps[1..];
        forall k | 0 <= k < |rest| ensures i + |search| <= rest[k] && Occurs(content, search, rest[k]) {
          StartsApart(content, search, i, ps, k + 1);
        }
        CountIsLargest(content, search, i + |search|, rest);
      } else {
        forall k | 0 <= k < |ps| ensures i + 1 <= ps[k] { if k > 0 { StartsApart(content, search, i, ps, k); } }
        CountIsLargest(content, search, i + 1, ps);
      }
    }
  }

  lemma {:induction false} StartsApart(content: string, search: string, i: nat, ps: seq<int>, k: nat)
    requires search != "" && Disjoint(content, search, i, ps) && 0 < k < |ps|
    ensures ps[0] + |search| <= ps[k]
    decreases k
  {
    if k > 1 { StartsApart(content, search, i, ps, k - 1); }
  }

  lemma {:induction false} CountIsAttained(content: string, search: string, i: nat) returns (ps: seq<int>)
    requires search != ""
    ensures Disjoint(content, search, i, ps) && |ps| == CountFrom(content, search, i)
    decreases |content| - i
  {
    if i + |search| > |content| {
      ps := [];
    } else if Occurs(content, search, i) {
      var rest := CountIsAttained(content, search, i + |search|);
      ps := [i] + rest;
      assert forall k | 0 < k < |ps| :: ps[k] == rest[k - 1];
    } else {
      ps := CountIsAttained(content, search, i + 1);
    }
  }

  ghost predicate OccursSomewhere(content: string, search: string) {
    exists p :: Occurs(content, search, p)
  }

  ghost predicate OccursTwiceApart(content: string, search: string) {
    exists p, q :: Occurs(content, search, p) && Occurs(content, search, q) && p + |search| <= q
  }

  lemma CountMeaning(content: string, search: string)
    requires search != ""
    ensures Count(content, search) > 0 <==> OccursSomewhere(content, search)
    ensures Count(content, search) > 1 <==> OccursTwiceApart(content, search)
  {
    var ps := CountIsAttained(content, search, 0);
    if |ps| > 1 { assert Occurs(content, search, ps[0]) && Occurs(content, search, ps[1]) && ps[0] + |search| <= ps[1]; }
    if |ps| > 0 { assert Occurs(content, search, ps[0]); }
    if p :| Occurs(content, search, p) { CountIsLargest(content, search, 0, [p]); }
    if p, q :| Occurs(content, search, p) && Occurs(content, search, q) && p + |search| <= q {
      CountIsLargest(content, search, 0, [p, q]);
    }
  }

  /** Part of the search text is both its beginning and its end, so that it can overlap itself. */
  predicate Bordered(search: string) {
    exists d :: 0 < d < |search| && search[d..] == search[..|search| - d]
  }

  ghost predicate OccursOnce(content: string, search: string) {
    forall p, q | Occurs(content, search, p) && Occurs(content, search, q) :: p == q
  }

  /**
   The count ignores overlaps. A count of one means a single occurrence, overlaps included, for every text, if and
   only if the search text cannot overlap itself.
   */
  lemma CountOneIsUniqueIff(search: string)
    requires search != ""
    ensures (forall content | Count(content, search) == 1 :: OccursOnce(content, search)) <==> !Bordered(search)
  {
    if Bordered(search) {
      var d :| 0 < d < |search| && search[d..] == search[..|search| - d];
      OverlapsItself(search, d);
    } else {
      forall content | Count(content, search) == 1 ensures OccursOnce(content, search) {
        forall p, q | Occurs(content, search, p) && Occurs(content, search, q) && p < q ensures false {
          CountMeaning(content, search);
          OverlapIsBorder(content, search, p, q);
        }
      }
    }
  }

  /** Two overlapping occurrences show a border. */
  lemma OverlapIsBorder(content: string, search: string, p: int, q: int)
    requires Occurs(content, search, p) && Occurs(content, search, q) && p < q < p + |search|
    ensures Bordered(search)
  {
    var d := q - p;
    assert search[d..] == content[q..p + |search|];
    assert search[..|search| - d] == content[q..p + |search|];
  }

  /** A text that holds the search text twice, overlapping, and yet counts one. */
  lemma OverlapsItself(search: string, d: nat)
    requires 0 < d < |search| && search[d..] == search[..|search| - d]
    ensures var content := search[..d] + search;
            Count(content, search) == 1 && Occurs(content, search, 0) && Occurs(content, search, d)
  {
    var content := search[..d] + search;
    assert content[..|search|] == search[..d] + search[..|search| - d];
    assert search == search[..d] + search[d..];
    CountMeaning(content, search);
  }

  lemma {:induction false} IndexIsFirst(content: string, search: string, i: nat)
    requires search != ""
    ensures var p := IndexFrom(content, search, i);
            if p < 0 then p == -1 && forall q | i <= q :: !Occurs(content, search, q)
            else i <= p && Occurs(content, search, p) && forall q | i <= q < p :: !Occurs(content, search, q)
    decreases |content| - i
  {
    if i + |search| <= |content| && !Occurs(content, search, i) {
      IndexIsFirst(content, search, i + 1);
    }
  }

  // ----- finding -----

  /** The text of the file that matches, and how many matches there are; the text is used only if there is one. */
  function FindWithQuoteNormalization(content: string, search: string): (string, nat)
    requires search != ""
  {
    var count := Count(content, search);
    if count > 0 then (search, count)
    else
      var normContent, normSearch := NormalizeStraight(content), NormalizeStraight(search);
      if normContent == content && normSearch == search then ("", 0)
      else
        var count := Count(normContent, normSearch);
        if count != 1 then ("", count)
        else
          var pos := IndexFrom(normContent, normSearch, 0);
          // a count of one means a position inside the text; runes correspond one to one
          if pos < 0 || pos + |normSearch| > |content| then ("", 0)
          else (content[pos..pos + |normSearch|], 1)
  }

  /** Matching mode: exact if the search text occurs as it is, else up to quote style. */
  ghost function InMode(content: string, search: string, s: string): string {
    if OccursSomewhere(content, search) then s else NormalizeStraight(s)
  }

  /** The count decides between not found, unique and ambiguous, in the mode that applies. */
  lemma FindCounts(content: string, search: string)
    requires search != ""
    ensures var c, s := InMode(content, search, content), InMode(content, search, search);
            && (FindWithQuoteNormalization(content, search).1 == 0 <==> !OccursSomewhere(c, s))
            && (FindWithQuoteNormalization(content, search).1 > 1 <==> OccursTwiceApart(c, s))
  {
    CountMeaning(content, search);
    CountMeaning(NormalizeStraight(content), NormalizeStraight(search));
    IndexIsFirst(NormalizeStraight(content), NormalizeStraight(search), 0);
  }

  lemma NormalizeSlice(s: string, i: nat, j: nat)
    requires i <= j <= |s|
    ensures NormalizeStraight(s)[i..j] == NormalizeStraight(s[i..j])
  {}

  lemma OccursNormalized(content: string, search: string, p: int)
    requires Occurs(content, search, p)
    ensures Occurs(NormalizeStraight(content), NormalizeStraight(search), p)
  {
    NormalizeSlice(content, p, p + |search|);
  }

  /** A unique find names a span of the file that equals the search text in the mode, and is the first occurrence of itself. */
  lemma FindLocates(content: string, search: string) returns (p: nat)
    requires search != "" && FindWithQuoteNormalization(content, search).1 == 1
    ensures var actual := FindWithQuoteNormalization(content, search).0;
            && |actual| == |search| && p + |actual| <= |content| && content[p..p + |actual|] == actual
            && InMode(content, search, actual) == InMode(content, search, search)
            && IndexFrom(content, actual, 0) == p
            && (actual == search <==> OccursSomewhere(content, search))
  {
    var actual := FindWithQuoteNormalization(content, search).0;
    CountMeaning(content, search);
    if Count(content, search) > 0 {
      IndexIsFirst(content, search, 0);
      p := IndexFrom(content, search, 0);
    } else {
      var nc, ns := NormalizeStraight(content), NormalizeStraight(search);
      CountMeaning(nc, ns);
      IndexIsFirst(nc, ns, 0);
      p := IndexFrom(nc, ns, 0);
      NormalizeSlice(content, p, p + |search|);
      assert NormalizeStraight(actual) == ns;
      assert Occurs(content, actual, p);
      IndexIsFirst(content, actual, 0);
      var q := IndexFrom(content, actual, 0);
      OccursNormalized(content, actual, q);
    }
  }

  // ----- the replacement -----

  /** unicode.IsSpace, IsPunct and IsLetter. */
  datatype Unicode = Unicode(isSpace: char -> bool, isPunct: char -> bool, isLetter: char -> bool)

  predicate ContainsCurlyQuotes(s: string) { exists i :: 0 <= i < |s| && Curly(s[i]) }

  lemma CurlyIff(s: string)
    ensures ContainsCurlyQuotes(s) <==> NormalizeStraight(s) != s
  {
    if forall i | 0 <= i < |s| :: !Curly(s[i]) {
      forall i | 0 <= i < |s| ensures NormalizeStraight(s)[i] == s[i] { StraightTable(s, i); }
    } else {
      var i :| 0 <= i < |s| && Curly(s[i]);
      StraightTable(s, i);
    }
  }

  predicate IsOpeningPosition(u: Unicode, runes: string, i: nat)
    requires i < |runes|
  {
    i == 0 || u.isSpace(runes[i - 1]) || u.isPunct(runes[i - 1]) || runes[i - 1] == '(' || runes[i - 1] == '['
  }

  predicate IsApostrophe(u: Unicode, runes: string, i: nat)
    requires i < |runes|
  {
    0 < i < |runes| - 1 && u.isLetter(runes[i - 1]) && u.isLetter(runes[i + 1])
  }

  /** Position i starts the text, or comes after white space, punctuation or an opening bracket. */
  ghost predicate AfterBreak(u: Unicode, s: string, i: nat)
    requires i < |s|
  {
    i > 0 ==> u.isSpace(s[i - 1]) || u.isPunct(s[i - 1]) || s[i - 1] in "(["
  }

  ghost predicate BetweenLetters(u: Unicode, s: string, i: nat)
    requires i < |s|
  {
    i > 0 && i + 1 < |s| && u.isLetter(s[i - 1]) && u.isLetter(s[i + 1])
  }

  method ApplyCurlyQuotes(u: Unicode, oldActual: string, newText: string) returns (out: string)
    ensures NormalizeStraight(out) == NormalizeStraight(newText)
    ensures NormalizeStraight(oldActual) == oldActual ==> out == newText
    ensures NormalizeStraight(oldActual) != oldActual ==> |out| == |newText|
    ensures NormalizeStraight(oldActual) != oldActual ==>
              forall i | 0 <= i < |out| && newText[i] != '"' && newText[i] != '\'' :: out[i] == newText[i]
    ensures NormalizeStraight(oldActual) != oldActual ==> forall i | 0 <= i < |out| && newText[i] == '"' ::
              out[i] == if AfterBreak(u, newText, i) then '\U{201C}' else '\U{201D}'
    ensures NormalizeStraight(oldActual) != oldActual ==> forall i | 0 <= i < |out| && newText[i] == '\'' ::
              out[i] == if AfterBreak(u, newText, i) && !BetweenLetters(u, newText, i) then '\U{2018}' else '\U{2019}'
    ensures NormalizeStraight(oldActual) != oldActual ==> '"' !in out && '\'' !in out
  {
    CurlyIff(oldActual);
    if !ContainsCurlyQuotes(oldActual) { return newText; }
    out := "";
    for i := 0 to |newText|
      invariant |out| == i
      invariant forall k | 0 <= k < i && newText[k] != '"' && newText[k] != '\'' :: out[k] == newText[k]
      invariant forall k | 0 <= k < i && newText[k] == '"' ::
                  out[k] == if AfterBreak(u, newText, k) then LEFT_DOUBLE else RIGHT_DOUBLE
      invariant forall k | 0 <= k < i && newText[k] == '\'' ::
                  out[k] == if AfterBreak(u, newText, k) && !BetweenLetters(u, newText, k) then LEFT_SINGLE else RIGHT_SINGLE
    {
      var r := newText[i];
      if r == '"' {
        out := out + [if IsOpeningPosition(u, newText, i) then LEFT_DOUBLE else RIGHT_DOUBLE];
      } else if r == '\'' {
        if IsApostrophe(u, newText, i) {
          out := out + [RIGHT_SINGLE];
        } else if IsOpeningPosition(u, newText, i) {
          out := out + [LEFT_SINGLE];
        } else {
          out := out + [RIGHT_SINGLE];
        }
      } else {
        out := out + [r];
      }
    }
    assert forall k | 0 <= k < |out| :: Straight(out[k]) == Straight(newText[k]);
  }

  // ----- the tool -----

  datatype EditError = InvalidArgs | FileStale | ReadFailed | NotFound | NotUnique(count: nat) | WriteFailed

  datatype EditResult = Edited(meta: LineDiff.DiffMeta) | Refused(error: EditError)

  ghost predicate NoMatch(content: string, search: string) {
    !OccursSomewhere(InMode(content, search, content), InMode(content, search, search))
  }

  ghost predicate UniqueMatch(content: string, search: string) {
    var c, s := InMode(content, search, content), InMode(content, search, search);
    OccursSomewhere(c, s) && !OccursTwiceApart(c, s)
  }

  /**
   One site changed: the file was prefix + span + suffix, the span equals the search text (exactly, or up to
   quote style when it occurs nowhere exactly), no two disjoint spans match in that mode, and the
   replacement is the new text up to quote style, unaltered unless the span itself held curly quotes.
   */
  ghost predicate EditsOneSpan(before: string, after: string, oldText: string, newText: string, p: nat, replacement: string) {
    var end := p + |oldText|;
    && oldText != "" && end <= |before|
    && after == before[..p] + replacement + before[end..]
    && InMode(before, oldText, before[p..end]) == InMode(before, oldText, oldText)
    && UniqueMatch(before, oldText)
    && NormalizeStraight(replacement) == NormalizeStraight(newText)
    && (OccursSomewhere(before, oldText) || !ContainsCurlyQuotes(before[p..end]) ==> replacement == newText)
  }

  lemma FindDecides(content: string, search: string)
    requires search != ""
    ensures FindWithQuoteNormalization(content, search).1 == 0 <==> NoMatch(content, search)
    ensures FindWithQuoteNormalization(content, search).1 == 1 <==> UniqueMatch(content, search)
  {
    FindCounts(content, search);
  }

  /** The text found is a span of the file at p, its own first occurrence, and matches the search text in the mode. */
  ghost predicate Located(content: string, search: string, actual: string, p: nat) {
    && search != ""
    && |actual| == |search| && p + |actual| <= |content| && content[p..p + |actual|] == actual
    && InMode(content, search, actual) == InMode(content, search, search)
    && IndexFrom(content, actual, 0) == p
    && (actual == search <==> OccursSomewhere(content, search))
  }

  method Find(content: string, search: string) returns (actual: string, count: nat, ghost p: nat)
    requires search != ""
    ensures (actual, count) == FindWithQuoteNormalization(content, search)
    ensures count == 0 <==> NoMatch(content, search)
    ensures count == 1 <==> UniqueMatch(content, search)
    ensures count == 1 ==> Located(content, search, actual, p)
    ensures count == 0 ==> actual == ""
  {
    var found := FindWithQuoteNormalization(content, search);
    actual, count, p := found.0, found.1, 0;
    FindDecides(content, search);
    if count == 1 { p := FindLocates(content, search); }
  }

  /** Replacing the first occurrence of the text that was found hits the very span that was found. */
  lemma EditEffect(content: string, oldText: string, newText: string, actual: string, with: string, p: nat)
    requires UniqueMatch(content, oldText) && Located(content, oldText, actual, p)
    requires NormalizeStraight(with) == NormalizeStraight(newText)
    requires actual == oldText || !ContainsCurlyQuotes(actual) ==> with == newText
    ensures EditsOneSpan(content, ReplaceFirst(content, actual, with), oldText, newText, p, with)
  {}

  method ChooseReplacement(u: Unicode, oldText: string, actual: string, newText: string) returns (with: string)
    ensures NormalizeStraight(with) == NormalizeStraight(newText)
    ensures actual == oldText || !ContainsCurlyQuotes(actual) ==> with == newText
  {
    with := newText;
    if actual != oldText {
      with := ApplyCurlyQuotes(u, actual, newText);
    }
  }

  datatype Rewritten = Updated(updated: string) | Impossible(error: EditError)

  /** What to write: decided by the number of matches alone. */
  method Rewrite(u: Unicode, content: string, oldText: string, newText: string)
    returns (r: Rewritten, ghost p: nat, ghost replacement: string)
    requires oldText != ""
    ensures r.Updated? <==> UniqueMatch(content, oldText)
    ensures r.Updated? ==> EditsOneSpan(content, r.updated, oldText, newText, p, replacement)
    ensures r == Impossible(NotFound) <==> NoMatch(content, oldText)
    ensures r.Impossible? ==> r.error.NotFound? || r.error.NotUnique?
  {
    replacement := "";
    var actual, count;
    actual, count, p := Find(content, oldText);
    if count == 0 { return Impossible(NotFound), p, replacement; }
    if count > 1 { return Impossible(NotUnique(count)), p, replacement; }
    var with := ChooseReplacement(u, oldText, actual, newText);
    replacement := with;
    EditEffect(content, oldText, newText, actual, with, p);
    return Updated(ReplaceFirst(content, actual, with)), p, replacement;
  }

  class TextFile {
    var content: string
    /** The snapshot the undo command restores, taken just before the latest write attempt. */
    var snapshot: Option<string>

    constructor (text: string)
      ensures content == text && snapshot == None
    {
      content, snapshot := text, None;
    }

    /**
     A refused edit changes no content, whatever the reason; a search text without a unique match
     is refused before anything is touched. `snapshots` is false for a file the undo directory does not take.
     */
    method Edit(u: Unicode, oldText: string, newText: string,
                stale: bool, readable: bool, snapshots: bool, writable: bool)
      returns (r: EditResult, ghost p: nat, ghost replacement: string)
      modifies this
      ensures r.Refused? ==> content == old(content)
      ensures r.Edited? ==> EditsOneSpan(old(content), content, oldText, newText, p, replacement)
      ensures r.Edited? ==> (r.meta.added == 0 && r.meta.removed == 0 <==> content == old(content))
      ensures r.Edited? && snapshots ==> snapshot == Some(old(content))
      ensures !snapshots || (r.Refused? && r.error != WriteFailed) ==> snapshot == old(snapshot)
      ensures r.Edited? <==> oldText != "" && !stale && readable && UniqueMatch(old(content), oldText) && writable
      ensures r == Refused(InvalidArgs) <==> oldText == ""
      ensures r == Refused(FileStale) <==> oldText != "" && stale
      ensures r == Refused(ReadFailed) <==> oldText != "" && !stale && !readable
      ensures r == Refused(NotFound) <==> oldText != "" && !stale && readable && NoMatch(old(content), oldText)
    {
      p, replacement := 0, "";
      if oldText == "" { return Refused(InvalidArgs), p, replacement; }
      if stale { return Refused(FileStale), p, replacement; }
      if !readable { return Refused(ReadFailed), p, replacement; }
      var rewritten;
      rewritten, p, replacement := Rewrite(u, content, oldText, newText);
      if rewritten.Impossible? { return Refused(rewritten.error), p, replacement; }
      if snapshots { snapshot := Some(content); }
      if !writable { return Refused(WriteFailed), p, replacement; }
      var before := content;
      content := rewritten.updated;
      var meta := LineDiff.ComputeDiffMeta(before, rewritten.updated);
      return Edited(meta), p, replacement;
    }
  }
}
