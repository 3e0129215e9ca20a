/** Which packages a change affects: everything that can reach a changed package over imports, tests included. */
module Affected {
  import opened Prelude
  import opened Sorting

  datatype Package = Package(importPath: string, dir: string,
                             goFiles: seq<string>, testGoFiles: seq<string>, xTestGoFiles: seq<string>,
                             imports: seq<string>, testImports: seq<string>, xTestImports: seq<string>)

  function AllSourceFiles(p: Package): seq<string> { p.goFiles + p.testGoFiles + p.xTestGoFiles }

  function AllImports(p: Package): seq<string> { p.imports + p.testImports + p.xTestImports }

  /** filepath.Join, Clean and IsAbs. */
  datatype Paths = Paths(join: (string, string) -> string, clean: string -> string, isAbs: string -> bool)

  // ----- what is asked for -----

  ghost predicate Known(pkgs: seq<Package>, name: string) {
    exists i :: 0 <= i < |pkgs| && pkgs[i].importPath == name
  }

  /** Package `user` imports the known package `dep`, in its own files or its tests. */
  ghost predicate Uses(pkgs: seq<Package>, user: string, dep: string) {
    Known(pkgs, dep) && exists i :: 0 <= i < |pkgs| && pkgs[i].importPath == user && Imports(pkgs[i], dep)
  }

  predicate Imports(p: Package, dep: string) { dep in p.imports || dep in p.testImports || dep in p.xTestImports }

  /** The package a file belongs to; if several list it, the last one. */
  function OwnerOf(paths: Paths, pkgs: seq<Package>, file: string): Option<string> {
    if pkgs == [] then None
    else if LastLists(paths, pkgs, file) then Some(pkgs[|pkgs| - 1].importPath)
    else OwnerOf(paths, pkgs[..|pkgs| - 1], file)
  }

  predicate LastLists(paths: Paths, pkgs: seq<Package>, file: string)
    requires pkgs != []
  {
    var p := pkgs[|pkgs| - 1];
    exists k :: 0 <= k < |AllSourceFiles(p)| && paths.join(p.dir, AllSourceFiles(p)[k]) == file
  }

  function Resolve(paths: Paths, root: string, file: string): string {
    paths.clean(if paths.isAbs(file) then file else paths.join(root, file))
  }

  /** The packages that own a changed file. */
  function Changed(paths: Paths, pkgs: seq<Package>, files: seq<string>, root: string): set<string> {
    if files == [] then {}
    else
      var before := Changed(paths, pkgs, files[..|files| - 1], root);
      match OwnerOf(paths, pkgs, Resolve(paths, root, files[|files| - 1]))
      case Some(name) => before + {name}
      case None => before
  }

  /** The file is one of the package's sources, tests included. */
  ghost predicate Owns(paths: Paths, p: Package, file: string) {
    exists x :: IsSource(p, x) && paths.join(p.dir, x) == file
  }

  predicate IsSource(p: Package, x: string) { x in p.goFiles || x in p.testGoFiles || x in p.xTestGoFiles }

  /** Of the packages that own the file this is the last. */
  ghost predicate LastOwner(paths: Paths, pkgs: seq<Package>, file: string, i: int) {
    0 <= i < |pkgs| && Owns(paths, pkgs[i], file) && forall j | i < j < |pkgs| :: !Owns(paths, pkgs[j], file)
  }

  /** The changed file, made absolute from the root and cleaned, belongs to package `name`. */
  ghost predicate BelongsTo(paths: Paths, pkgs: seq<Package>, root: string, f: string, name: string) {
    exists i {:trigger pkgs[i]} | 0 <= i < |pkgs| :: pkgs[i].importPath == name &&
      LastOwner(paths, pkgs, paths.clean(if paths.isAbs(f) then f else paths.join(root, f)), i)
  }

  /** Exactly the packages to which a changed file belongs. */
  ghost predicate ChangedAre(paths: Paths, pkgs: seq<Package>, files: seq<string>, root: string, roots: set<string>) {
    forall name :: name in roots <==> exists f | f in files :: BelongsTo(paths, pkgs, root, f, name)
  }

  lemma ListsIffOwns(paths: Paths, pkgs: seq<Package>, file: string)
    requires pkgs != []
    ensures LastLists(paths, pkgs, file) <==> Owns(paths, pkgs[|pkgs| - 1], file)
  {
    var p := pkgs[|pkgs| - 1];
    var all := p.goFiles + p.testGoFiles + p.xTestGoFiles;
    if Owns(paths, p, file) {
      var x :| IsSource(p, x) && paths.join(p.dir, x) == file;
      assert x in all;
      var k :| 0 <= k < |all| && all[k] == x;
      assert AllSourceFiles(p)[k] == x;
    }
    if LastLists(paths, pkgs, file) {
      var k :| 0 <= k < |AllSourceFiles(p)| && paths.join(p.dir, AllSourceFiles(p)[k]) == file;
      var x := AllSourceFiles(p)[k];
      assert x in all;
      assert IsSource(p, x) && paths.join(p.dir, x) == file;
    }
  }

  lemma {:induction false} OwnerIsLast(paths: Paths, pkgs: seq<Package>, file: string) returns (i: int)
    ensures OwnerOf(paths, pkgs, file).Some? ==>
              LastOwner(paths, pkgs, file, i) && pkgs[i].importPath == OwnerOf(paths, pkgs, file).value
    ensures OwnerOf(paths, pkgs, file) == None ==> forall j | 0 <= j < |pkgs| :: !Owns(paths, pkgs[j], file)
  {
    i := |pkgs| - 1;
    if pkgs != [] {
      ListsIffOwns(paths, pkgs, file);
      if !LastLists(paths, pkgs, file) { i := OwnerIsLast(paths, pkgs[..i], file); }
    }
  }

  lemma BelongsIff(paths: Paths, pkgs: seq<Package>, root: string, f: string, name: string)
    ensures BelongsTo(paths, pkgs, root, f, name) <==> OwnerOf(paths, pkgs, Resolve(paths, root, f)) == Some(name)
  {
    var i := OwnerIsLast(paths, pkgs, Resolve(paths, root, f));
    if BelongsTo(paths, pkgs, root, f, name) {
      var j :| 0 <= j < |pkgs| && pkgs[j].importPath == name && LastOwner(paths, pkgs, Resolve(paths, root, f), j);
      assert j == i;
    }
  }

  lemma {:induction false} ChangedIs(paths: Paths, pkgs: seq<Package>, files: seq<string>, root: string)
    ensures ChangedAre(paths, pkgs, files, root, Changed(paths, pkgs, files, root))
  {
    if files != [] {
      var front, f := files[..|files| - 1], files[|files| - 1];
      ChangedIs(paths, pkgs, front, root);
      assert files == front + [f];
      forall name ensures name in Changed(paths, pkgs, files, root) <==> exists f | f in files :: BelongsTo(paths, pkgs, root, f, name) {
        BelongsIff(paths, pkgs, root, f, name);
      }
    }
  }

  /** A chain of imports from its first package down to its last. */
  ghost predicate Chain(pkgs: seq<Package>, chain: seq<string>) {
    chain != [] && forall i | 0 <= i < |chain| - 1 :: Uses(pkgs, chain[i], chain[i + 1])
  }

  /** Some changed package is reachable from this one. */
  ghost predicate IsAffected(pkgs: seq<Package>, roots: set<string>, name: string) {
    exists chain :: Chain(pkgs, chain) && chain[0] == name && chain[|chain| - 1] in roots
  }

  lemma ChangedIsAffected(pkgs: seq<Package>, roots: set<string>, name: string)
    requires name in roots
    ensures IsAffected(pkgs, roots, name)
  {
    assert Chain(pkgs, [name]);
  }

  lemma UserIsAffected(pkgs: seq<Package>, roots: set<string>, user: string, dep: string)
    requires IsAffected(pkgs, roots, dep) && Uses(pkgs, user, dep)
    ensures IsAffected(pkgs, roots, user)
  {
    var chain :| Chain(pkgs, chain) && chain[0] == dep && chain[|chain| - 1] in roots;
    var longer := [user] + chain;
    assert forall i | 0 < i < |longer| :: longer[i] == chain[i - 1];
    assert Chain(pkgs, longer);
  }

  /** A set with the changed packages that is closed under "is imported by" holds every affected package. */
  lemma {:induction false} ClosedHoldsChain(pkgs: seq<Package>, roots: set<string>, visited: set<string>, chain: seq<string>)
    requires roots <= visited && forall u, d | d in visited && Uses(pkgs, u, d) :: u in visited
    requires Chain(pkgs, chain) && chain[|chain| - 1] in roots
    ensures chain[0] in visited
    decreases |chain|
  {
    if |chain| > 1 {
      var rest := chain[1..];
      assert forall i | 0 <= i < |rest| :: rest[i] == chain[i + 1];
      ClosedHoldsChain(pkgs, roots, visited, rest);
      assert Uses(pkgs, chain[0], chain[1]);
    }
  }

  // ----- the order of import paths -----

  predicate LexLe(a: string, b: string) {
    if a == [] then true
    else if b == [] then false
    else if a[0] == b[0] then LexLe(a[1..], b[1..])
    else a[0] < b[0]
  }

  lemma {:induction false} LexTotal(a: string, b: string)
    ensures LexLe(a, b) || LexLe(b, a)
    ensures LexLe(a, b) && LexLe(b, a) ==> a == b
  {
    if a != [] && b != [] && a[0] == b[0] {
      LexTotal(a[1..], b[1..]);
      assert a == [a[0]] + a[1..] && b == [b[0]] + b[1..];
    }
  }

  /** One text comes before another if it is a prefix of it, or is smaller at the first character where they differ. */
  lemma {:induction false} LexMeans(a: string, b: string)
    ensures LexLe(a, b) <==> a <= b || exists k :: 0 <= k < |a| && k < |b| && a[..k] == b[..k] && a[k] < b[k]
  {
    if a != [] && b != [] && a[0] == b[0] {
      LexMeans(a[1..], b[1..]);
      if a <= b { assert a[1..] <= b[1..]; }
      if a[1..] <= b[1..] { assert a == [a[0]] + a[1..] && b == [b[0]] + b[1..]; }
      if k :| 0 <= k < |a| && k < |b| && a[..k] == b[..k] && a[k] < b[k] {
        assert k > 0 && a[1..][..k - 1] == a[..k][1..] && b[1..][..k - 1] == b[..k][1..];
      }
      if k :| 0 <= k < |a[1..]| && k < |b[1..]| && a[1..][..k] == b[1..][..k] && a[1..][k] < b[1..][k] {
        assert a[..k + 1] == [a[0]] + a[1..][..k] && b[..k + 1] == [b[0]] + b[1..][..k];
      }
    } else if a != [] && b != [] {
      assert a[..0] == b[..0];
    }
  }

  lemma {:induction false} LexTransitive(a: string, b: string, c: string)
    requires LexLe(a, b) && LexLe(b, c)
    ensures LexLe(a, c)
  {
    if a != [] && b != [] && c != [] && a[0] == b[0] && b[0] == c[0] { LexTransitive(a[1..], b[1..], c[1..]); }
  }

  predicate StrictlySorted(xs: seq<string>) {
    forall i, j | 0 <= i < j < |xs| :: LexLe(xs[i], xs[j]) && xs[i] != xs[j]
  }

  // ----- the computation -----

  method IndexFiles(paths: Paths, pkgs: seq<Package>) returns (fileToImport: map<string, string>)
    ensures forall f :: (if f in fileToImport then Some(fileToImport[f]) else None) == OwnerOf(paths, pkgs, f)
  {
    fileToImport := map[];
    for i := 0 to |pkgs|
      invariant forall f :: (if f in fileToImport then Some(fileToImport[f]) else None) == OwnerOf(paths, pkgs[..i], f)
    {
      var p, files := pkgs[i], AllSourceFiles(pkgs[i]);
      ghost var before := fileToImport;
      for j := 0 to |files|
        invariant forall f :: (if f in fileToImport then Some(fileToImport[f]) else None) ==
                              if exists k :: 0 <= k < j && paths.join(p.dir, files[k]) == f then Some(p.importPath)
                              else if f in before then Some(before[f]) else None
      {
        fileToImport := fileToImport[paths.join(p.dir, files[j]) := p.importPath];
      }
      assert pkgs[..i + 1][..i] == pkgs[..i];
    }
    assert pkgs[..|pkgs|] == pkgs;
  }

  method KnownPackages(pkgs: seq<Package>) returns (known: set<string>)
    ensures forall n :: n in known <==> Known(pkgs, n)
  {
    known := {};
    for i := 0 to |pkgs|
      invariant forall n :: n in known <==> exists k :: 0 <= k < i && pkgs[k].importPath == n
    {
      known := known + {pkgs[i].importPath};
    }
  }

  function Users(rev: map<string, seq<string>>, dep: string): seq<string> {
    if dep in rev then rev[dep] else []
  }

  /** The reverse graph: who imports each known package. */
  method ReverseGraph(pkgs: seq<Package>, known: set<string>) returns (rev: map<string, seq<string>>)
    requires forall n :: n in known <==> Known(pkgs, n)
    ensures forall u, d :: u in Users(rev, d) <==> Uses(pkgs, u, d)
  {
    rev := map[];
    for i := 0 to |pkgs|
      invariant forall u, d :: u in Users(rev, d) <==>
                               d in known && exists k :: 0 <= k < i && pkgs[k].importPath == u && Imports(pkgs[k], d)
    {
      rev := AddImports(pkgs[i], known, rev);
    }
  }

  method AddImports(p: Package, known: set<string>, before: map<string, seq<string>>) returns (rev: map<string, seq<string>>)
    ensures forall u, d :: u in Users(rev, d) <==> u in Users(before, d) || (u == p.importPath && d in known && Imports(p, d))
  {
    var deps := AllImports(p);
    var seen: set<string> := {};
    rev := before;
    for j := 0 to |deps|
      invariant forall d :: d in seen <==> d in known && d in deps[..j]
      invariant forall u, d :: u in Users(rev, d) <==> u in Users(before, d) || (u == p.importPath && d in seen)
    {
      assert deps[..j + 1] == deps[..j] + [deps[j]];
      var dep := deps[j];
      if dep in known && dep !in seen {
        seen := seen + {dep};
        rev := rev[dep := Users(rev, dep) + [p.importPath]];
      }
    }
    assert deps[..|deps|] == deps;
  }

  method DirectlyChanged(paths: Paths, pkgs: seq<Package>, fileToImport: map<string, string>, files: seq<string>, root: string)
    returns (roots: set<string>)
    requires forall f :: (if f in fileToImport then Some(fileToImport[f]) else None) == OwnerOf(paths, pkgs, f)
    ensures roots == Changed(paths, pkgs, files, root)
  {
    roots := {};
    for i := 0 to |files|
      invariant roots == Changed(paths, pkgs, files[..i], root)
    {
      assert files[..i + 1][..i] == files[..i];
      var f := Resolve(paths, root, files[i]);
      if f in fileToImport { roots := roots + {fileToImport[f]}; }
    }
    assert files[..|files|] == files;
  }

  /** Every visited package that is not waiting in the queue has all its users visited. */
  ghost predicate ClosedBut(rev: map<string, seq<string>>, visited: set<string>, queue: seq<string>) {
    forall u, d | d in visited && d !in queue && u in Users(rev, d) :: u in visited
  }

  ghost predicate AllAffected(pkgs: seq<Package>, roots: set<string>, visited: set<string>) {
    forall n | n in visited :: IsAffected(pkgs, roots, n)
  }

  /** Whoever was not visited yet is marked and joins the queue. */
  method Enqueue(users: seq<string>, visited: set<string>, queue: seq<string>) returns (marked: set<string>, longer: seq<string>)
    ensures visited <= marked && queue <= longer
    ensures forall n :: n in marked <==> n in visited || n in users
    ensures forall n :: n in longer <==> n in queue || (n in users && n !in visited)
    ensures marked == visited ==> longer == queue
  {
    marked, longer := visited, queue;
    for i := 0 to |users|
      invariant queue <= longer && visited <= marked
      invariant forall n :: n in marked <==> n in visited || n in users[..i]
      invariant forall n :: n in longer <==> n in queue || (n in users[..i] && n !in visited)
      invariant marked == visited ==> longer == queue
    {
      assert users[..i + 1] == users[..i] + [users[i]];
      var dependent := users[i];
      if dependent !in marked {
        marked := marked + {dependent};
        longer := longer + [dependent];
      }
    }
    assert users[..|users|] == users;
  }

  /** Breadth-first over the reverse graph; ends on any graph, cycles included. */
  method Visit(pkgs: seq<Package>, known: set<string>, rev: map<string, seq<string>>, roots: set<string>)
    returns (visited: set<string>)
    requires forall n :: n in known <==> Known(pkgs, n)
    requires forall u, d :: u in Users(rev, d) <==> Uses(pkgs, u, d)
    ensures forall n :: n in visited <==> IsAffected(pkgs, roots, n)
  {
    visited := roots;
    var queue := Elements(roots);
    forall n | n in roots ensures IsAffected(pkgs, roots, n) { ChangedIsAffected(pkgs, roots, n); }
    while |queue| > 0
      invariant Searching(pkgs, known, rev, roots, visited, queue)
      decreases |roots + known - visited|, |queue|
    {
      var cur, rest := queue[0], queue[1..];
      var marked, longer := Enqueue(Users(rev, cur), visited, rest);
      SearchStep(pkgs, known, rev, roots, visited, queue, marked, longer);
      visited, queue := marked, longer;
    }
    VisitedIsAll(pkgs, rev, roots, visited);
  }

  ghost predicate Searching(pkgs: seq<Package>, known: set<string>, rev: map<string, seq<string>>, roots: set<string>,
                            visited: set<string>, queue: seq<string>) {
    && roots <= visited <= roots + known
    && (forall q | q in queue :: q in visited)
    && AllAffected(pkgs, roots, visited) && ClosedBut(rev, visited, queue)
  }

  lemma SearchStep(pkgs: seq<Package>, known: set<string>, rev: map<string, seq<string>>, roots: set<string>,
                   visited: set<string>, queue: seq<string>, marked: set<string>, longer: seq<string>)
    requires forall n :: n in known <==> Known(pkgs, n)
    requires forall u, d :: u in Users(rev, d) <==> Uses(pkgs, u, d)
    requires queue != [] && Searching(pkgs, known, rev, roots, visited, queue)
    requires forall n :: n in marked <==> n in visited || n in Users(rev, queue[0])
    requires forall n :: n in longer <==> n in queue[1..] || (n in Users(rev, queue[0]) && n !in visited)
    ensures Searching(pkgs, known, rev, roots, marked, longer)
    ensures marked == visited || |roots + known - marked| < |roots + known - visited|
  {
    var cur := queue[0];
    assert queue == [cur] + queue[1..];
    UsersAffected(pkgs, rev, roots, visited, cur, marked);
    UsersKnown(pkgs, known, rev, cur);
    if marked != visited { Shrinks(roots + known, visited, marked); }
    forall u, d | d in marked && d !in longer && u in Users(rev, d) ensures u in marked {
      if d != cur { assert d in visited && d !in queue; }
    }
  }

  lemma UsersAffected(pkgs: seq<Package>, rev: map<string, seq<string>>, roots: set<string>, visited: set<string>, cur: string,
                      marked: set<string>)
    requires forall u, d :: u in Users(rev, d) <==> Uses(pkgs, u, d)
    requires AllAffected(pkgs, roots, visited) && cur in visited
    requires forall n :: n in marked <==> n in visited || n in Users(rev, cur)
    ensures AllAffected(pkgs, roots, marked)
  {
    forall n | n in marked ensures IsAffected(pkgs, roots, n) {
      if n !in visited { UserIsAffected(pkgs, roots, n, cur); }
    }
  }

  lemma UsersKnown(pkgs: seq<Package>, known: set<string>, rev: map<string, seq<string>>, cur: string)
    requires forall n :: n in known <==> Known(pkgs, n)
    requires forall u, d :: u in Users(rev, d) <==> Uses(pkgs, u, d)
    ensures forall u | u in Users(rev, cur) :: u in known
  {
    forall u | u in Users(rev, cur) ensures u in known {
      assert Uses(pkgs, u, cur);
    }
  }

  lemma VisitedIsAll(pkgs: seq<Package>, rev: map<string, seq<string>>, roots: set<string>, visited: set<string>)
    requires forall u, d :: u in Users(rev, d) <==> Uses(pkgs, u, d)
    requires roots <= visited && AllAffected(pkgs, roots, visited) && ClosedBut(rev, visited, [])
    ensures forall n :: n in visited <==> IsAffected(pkgs, roots, n)
  {
    forall n | IsAffected(pkgs, roots, n) ensures n in visited {
      var chain :| Chain(pkgs, chain) && chain[0] == n && chain[|chain| - 1] in roots;
      ClosedHoldsChain(pkgs, roots, visited, chain);
    }
  }

  lemma Shrinks(all: set<string>, visited: set<string>, marked: set<string>)
    requires visited <= marked <= all && marked != visited
    ensures |all - marked| < |all - visited|
  {
    var x :| x in marked && x !in visited;
    assert all - marked <= all - visited - {x};
    Smaller(all - marked, all - visited - {x});
  }

  lemma {:induction false} Smaller(a: set<string>, b: set<string>)
    requires a <= b
    ensures |a| <= |b|
  {
    if a != {} {
      var x :| x in a;
      Smaller(a - {x}, b - {x});
    }
  }

  /** The elements of a set, in whatever order. */
  method Elements(s: set<string>) returns (xs: seq<string>)
    ensures forall x :: x in xs <==> x in s
    ensures forall i, j | 0 <= i < j < |xs| :: xs[i] != xs[j]
  {
    xs := [];
    var todo := s;
    while todo != {}
      invariant todo <= s
      invariant forall x :: x in xs <==> x in s && x !in todo
      invariant forall i, j | 0 <= i < j < |xs| :: xs[i] != xs[j]
      decreases |todo|
    {
      var x :| x in todo;
      xs := xs + [x];
      todo := todo - {x};
    }
  }

  method SortStrings(xs: seq<string>) returns (ys: seq<string>)
    requires forall i, j | 0 <= i < j < |xs| :: xs[i] != xs[j]
    ensures StrictlySorted(ys) && forall x :: x in ys <==> x in xs
  {
    var le := (a, b) => LexLe(a, b);
    forall a: string, b: string ensures le(a, b) || le(b, a) { LexTotal(a, b); }
    forall a: string, b: string, c: string | le(a, b) && le(b, c) ensures le(a, c) { LexTransitive(a, b, c); }
    ys := SortFunc(xs, le);
    SameElements(xs, ys);
    forall i, j | 0 <= i < j < |ys| ensures LexLe(ys[i], ys[j]) && ys[i] != ys[j] { assert le(ys[i], ys[j]); }
  }

  lemma SameElements(xs: seq<string>, ys: seq<string>)
    requires multiset(xs) == multiset(ys) && forall i, j | 0 <= i < j < |xs| :: xs[i] != xs[j]
    ensures forall x :: x in ys <==> x in xs
    ensures forall i, j | 0 <= i < j < |ys| :: ys[i] != ys[j]
  {
    forall x ensures x in ys <==> x in xs { assert x in multiset(ys) <==> x in multiset(xs); }
    forall i, j | 0 <= i < j < |ys| ensures ys[i] != ys[j] {
      if ys[i] == ys[j] {
        assert ys == ys[..i] + [ys[i]] + ys[i + 1..j] + [ys[j]] + ys[j + 1..];
        assert multiset(ys)[ys[i]] >= 2;
        DistinctCount(xs, ys[i]);
      }
    }
  }

  lemma {:induction false} DistinctCount(xs: seq<string>, x: string)
    requires forall i, j | 0 <= i < j < |xs| :: xs[i] != xs[j]
    ensures multiset(xs)[x] <= 1
  {
    if xs != [] {
      var front, last := xs[..|xs| - 1], xs[|xs| - 1];
      assert xs == front + [last];
      DistinctCount(front, x);
    }
  }

  /**
   Strictly sorted and without repeats, exactly the packages from which a changed package is reachable.
   Without changed files the package list is not even asked for.
   */
  method AffectedPackages(paths: Paths, changedFiles: seq<string>, root: string, listed: Result<seq<Package>>)
    returns (r: Result<seq<string>>)
    ensures changedFiles == [] ==> r == Ok([])
    ensures changedFiles != [] && listed.Err? ==> r.Err? && r.error == listed.error
    ensures changedFiles != [] && listed.Ok? ==>
              r.Ok? && StrictlySorted(r.value) &&
              exists roots :: ChangedAre(paths, listed.value, changedFiles, root, roots) &&
                              forall n :: n in r.value <==> IsAffected(listed.value, roots, n)
  {
    if changedFiles == [] { return Ok([]); }
    if listed.Err? { return Err(listed.error); }
    var pkgs := listed.value;
    var fileToImport := IndexFiles(paths, pkgs);
    var known := KnownPackages(pkgs);
    var rev := ReverseGraph(pkgs, known);
    var roots := DirectlyChanged(paths, pkgs, fileToImport, changedFiles, root);
    ChangedIs(paths, pkgs, changedFiles, root);
    var visited := Visit(pkgs, known, rev, roots);
    var elements := Elements(visited);
    var result := SortStrings(elements);
    return Ok(result);
  }
}
