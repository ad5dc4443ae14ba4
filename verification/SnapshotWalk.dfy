/** The snapshot walk: a tree read with an explicit stack, against the tree itself, and the layout check
    against the manifest's paths. */
module SnapshotWalk {
  import opened Prelude
  import opened LinkTargets
  import opened Text

  const MAX_FILES: nat := 256
  const MAX_PATH_CHARS: nat := 512

  /** A directory's entries in name order, each a file with its size, a directory, or something else. */
  datatype Listing = Nil | Cons(name: string, node: Node, rest: Listing)

  datatype Node = File(size: nat) | Dir(entries: Listing) | Other

  type Path = seq<string>

  predicate NameSafe(path: Path) {
    path == [] || (|Join(path)| <= MAX_PATH_CHARS && '\0' !in Join(path) && '\r' !in Join(path) && '\n' !in Join(path))
  }

  // ----- The tree itself -----

  function Files(l: Listing, prefix: Path): set<(Path, nat)> {
    match l
    case Nil => {}
    case Cons(name, File(size), rest) => {(prefix + [name], size)} + Files(rest, prefix)
    case Cons(name, Dir(entries), rest) => Files(entries, prefix + [name]) + Files(rest, prefix)
    case Cons(_, Other, rest) => Files(rest, prefix)
  }

  function Directories(l: Listing, prefix: Path): set<Path> {
    match l
    case Nil => {}
    case Cons(name, Dir(entries), rest) =>
      {prefix + [name]} + Directories(entries, prefix + [name]) + Directories(rest, prefix)
    case Cons(_, _, rest) => Directories(rest, prefix)
  }

  /** Every path is within the limits, and there is nothing but files and directories. */
  predicate Clean(l: Listing, prefix: Path) {
    match l
    case Nil => true
    case Cons(name, node, rest) =>
      NameSafe(prefix + [name]) && !node.Other?
        && (node.Dir? ==> Clean(node.entries, prefix + [name])) && Clean(rest, prefix)
  }

  function Names(l: Listing): set<string> {
    if l.Nil? then {} else {l.name} + Names(l.rest)
  }

  /** No directory has two entries of one name. */
  predicate DistinctNames(l: Listing) {
    match l
    case Nil => true
    case Cons(name, node, rest) =>
      name !in Names(rest) && (node.Dir? ==> DistinctNames(node.entries)) && DistinctNames(rest)
  }

  lemma {:induction false} FilesAreBelow(l: Listing, prefix: Path)
    ensures forall f | f in Files(l, prefix) ::
              |f.0| > |prefix| && f.0[..|prefix|] == prefix && f.0[|prefix|] in Names(l)
  {
    match l
    case Nil =>
    case Cons(name, node, rest) =>
      FilesAreBelow(rest, prefix);
      if node.Dir? {
        FilesAreBelow(node.entries, prefix + [name]);
        forall f | f in Files(node.entries, prefix + [name])
          ensures |f.0| > |prefix| && f.0[..|prefix|] == prefix && f.0[|prefix|] == name
        {
          assert f.0[..|prefix| + 1] == prefix + [name];
          assert f.0[..|prefix|] == f.0[..|prefix| + 1][..|prefix|];
          assert f.0[|prefix|] == f.0[..|prefix| + 1][|prefix|];
        }
      }
  }

  /** No path has two sizes. */
  ghost predicate Functional(files: set<(Path, nat)>) {
    forall f, g | f in files && g in files :: f.0 == g.0 ==> f == g
  }

  lemma {:induction false} FilesAreFunctional(l: Listing, prefix: Path)
    requires DistinctNames(l)
    ensures Functional(Files(l, prefix))
  {
    match l
    case Nil =>
    case Cons(name, node, rest) =>
      FilesAreFunctional(rest, prefix);
      FilesAreBelow(rest, prefix);
      if node.Dir? {
        FilesAreFunctional(node.entries, prefix + [name]);
        FilesAreBelow(node.entries, prefix + [name]);
        forall f | f in Files(node.entries, prefix + [name]) ensures f.0[|prefix|] == name {
          assert f.0[|prefix|] == f.0[..|prefix| + 1][|prefix|];
        }
      }
  }

  // ----- The walk -----

  /** A directory still to be read. */
  datatype Pending = Pending(entries: Listing, prefix: Path)

  function PendingFiles(stack: seq<Pending>): set<(Path, nat)> {
    if stack == [] then {}
    else PendingFiles(stack[..|stack| - 1]) + Files(stack[|stack| - 1].entries, stack[|stack| - 1].prefix)
  }

  function PendingDirectories(stack: seq<Pending>): set<Path> {
    if stack == [] then {}
    else PendingDirectories(stack[..|stack| - 1]) + Directories(stack[|stack| - 1].entries, stack[|stack| - 1].prefix)
  }

  predicate PendingClean(stack: seq<Pending>) {
    stack == [] ||
    (PendingClean(stack[..|stack| - 1]) && Clean(stack[|stack| - 1].entries, stack[|stack| - 1].prefix))
  }

  function Weight(l: Listing): nat {
    match l
    case Nil => 0
    case Cons(_, node, rest) => 1 + (if node.Dir? then 1 + Weight(node.entries) else 0) + Weight(rest)
  }

  function PendingWeight(stack: seq<Pending>): nat {
    if stack == [] then 0 else PendingWeight(stack[..|stack| - 1]) + 1 + Weight(stack[|stack| - 1].entries)
  }

  ghost predicate Matches(files: map<Path, nat>, entries: set<(Path, nat)>) {
    && (forall p | p in files :: (p, files[p]) in entries)
    && (forall f | f in entries :: f.0 in files && files[f.0] == f.1)
  }

  lemma MatchesCount(files: map<Path, nat>, entries: set<(Path, nat)>)
    requires Matches(files, entries)
    ensures |files| == |entries|
  {
    assert files.Items == entries by {
      forall f | f in files.Items ensures f in entries {
        assert (f.0, files[f.0]) in entries;
      }
      forall f | f in entries ensures f in files.Items {
        assert f.0 in files && files[f.0] == f.1;
      }
    }
    assert |files.Items| == |files|;
  }

  /** What the walk finds: the tree's files, sizes and directories, or nothing when it may not be used. */
  ghost predicate Walked(root: Listing, found: Option<(map<Path, nat>, set<Path>)>) {
    if Clean(root, []) && |Files(root, [])| <= MAX_FILES then
      found.Some? && Matches(found.value.0, Files(root, [])) && found.value.1 == Directories(root, [])
    else
      found.None?
  }

  lemma PendingOneMore(stack: seq<Pending>, p: Pending)
    ensures PendingFiles(stack + [p]) == PendingFiles(stack) + Files(p.entries, p.prefix)
    ensures PendingDirectories(stack + [p]) == PendingDirectories(stack) + Directories(p.entries, p.prefix)
    ensures PendingClean(stack + [p]) <==> PendingClean(stack) && Clean(p.entries, p.prefix)
    ensures PendingWeight(stack + [p]) == PendingWeight(stack) + 1 + Weight(p.entries)
  {
    assert (stack + [p])[..|stack|] == stack;
  }

  /** What is still to be read, in the middle of a directory. */
  function LeftFiles(now: Pending, stack: seq<Pending>): set<(Path, nat)> {
    PendingFiles(stack) + Files(now.entries, now.prefix)
  }

  function LeftDirectories(now: Pending, stack: seq<Pending>): set<Path> {
    PendingDirectories(stack) + Directories(now.entries, now.prefix)
  }

  predicate LeftClean(now: Pending, stack: seq<Pending>) {
    PendingClean(stack) && Clean(now.entries, now.prefix)
  }

  function LeftWeight(now: Pending, stack: seq<Pending>): nat {
    PendingWeight(stack) + Weight(now.entries)
  }

  /** Putting a subdirectory off changes only that it is noted. */
  lemma PutOff(now: Pending, stack: seq<Pending>)
    requires now.entries.Cons? && now.entries.node.Dir?
    ensures var path := now.prefix + [now.entries.name];
            var rest, pushed := now.(entries := now.entries.rest), stack + [Pending(now.entries.node.entries, path)];
            && LeftFiles(now, stack) == LeftFiles(rest, pushed)
            && LeftDirectories(now, stack) == {path} + LeftDirectories(rest, pushed)
            && (NameSafe(path) ==> (LeftClean(now, stack) <==> LeftClean(rest, pushed)))
            && LeftWeight(rest, pushed) == LeftWeight(now, stack) - 1
  {
    PendingOneMore(stack, Pending(now.entries.node.entries, now.prefix + [now.entries.name]));
  }

  /** Taking a file. */
  lemma TakeFile(now: Pending, stack: seq<Pending>)
    requires now.entries.Cons? && now.entries.node.File?
    ensures var path := now.prefix + [now.entries.name];
            var rest := now.(entries := now.entries.rest);
            && LeftFiles(now, stack) == {(path, now.entries.node.size)} + LeftFiles(rest, stack)
            && LeftDirectories(now, stack) == LeftDirectories(rest, stack)
            && (NameSafe(path) ==> (LeftClean(now, stack) <==> LeftClean(rest, stack)))
            && LeftWeight(rest, stack) == LeftWeight(now, stack) - 1
  {
  }

  lemma Move<T>(all: set<T>, seen: set<T>, x: T, left: set<T>, left': set<T>)
    requires all == seen + left && left == {x} + left'
    ensures all == (seen + {x}) + left'
  {
  }

  /** The inner loop: one directory's entries, files at once, subdirectories onto the stack. */
  method ScanDirectory(
    dir: Pending, files: map<Path, nat>, directories: set<Path>, stack: seq<Pending>,
    ghost seen: set<(Path, nat)>, ghost all: set<(Path, nat)>, ghost allDirectories: set<Path>)
    returns (ok: bool, files': map<Path, nat>, directories': set<Path>,
             stack': seq<Pending>, ghost seen': set<(Path, nat)>)
    requires Functional(all) && all == seen + LeftFiles(dir, stack) && Matches(files, seen) && |files| <= MAX_FILES
    requires allDirectories == directories + LeftDirectories(dir, stack)
    ensures !ok ==> !LeftClean(dir, stack) || |all| > MAX_FILES
    ensures ok ==> all == seen' + PendingFiles(stack') && Matches(files', seen') && |files'| <= MAX_FILES
    ensures ok ==> allDirectories == directories' + PendingDirectories(stack')
    ensures ok ==> (PendingClean(stack') <==> LeftClean(dir, stack))
    ensures ok ==> PendingWeight(stack') <= LeftWeight(dir, stack)
  {
    files', directories', stack', seen' := files, directories, stack, seen;
    var now := dir;
    while now.entries.Cons?
      invariant all == seen' + LeftFiles(now, stack') && Matches(files', seen') && |files'| <= MAX_FILES
      invariant allDirectories == directories' + LeftDirectories(now, stack')
      invariant LeftClean(now, stack') <==> LeftClean(dir, stack)
      invariant LeftWeight(now, stack') <= LeftWeight(dir, stack)
      decreases now.entries
    {
      var path := now.prefix + [now.entries.name];
      if !NameSafe(path) || now.entries.node.Other? {
        ok := false;
        return;
      }
      var rest := now.(entries := now.entries.rest);
      if now.entries.node.Dir? {
        var pushed := stack' + [Pending(now.entries.node.entries, path)];
        PutOff(now, stack');
        Move(allDirectories, directories', path, LeftDirectories(now, stack'), LeftDirectories(rest, pushed));
        directories', stack' := directories' + {path}, pushed;
      } else {
        var size := now.entries.node.size;
        TakeFile(now, stack');
        Move(all, seen', (path, size), LeftFiles(now, stack'), LeftFiles(rest, stack'));
        AddFile(files', seen', all, path, size);
        files', seen' := files'[path := size], seen' + {(path, size)};
        MatchesCount(files', seen');
        if |files'| > MAX_FILES {
          SubsetCount(seen', all);
          ok := false;
          return;
        }
      }
      now := rest;
    }
    ok := true;
  }

  lemma StartOfWalk(root: Listing)
    ensures var stack := [Pending(root, [])];
            && PendingFiles(stack) == Files(root, []) && PendingDirectories(stack) == Directories(root, [])
            && (PendingClean(stack) <==> Clean(root, []))
  {
    PendingOneMore([], Pending(root, []));
    assert [] + [Pending(root, [])] == [Pending(root, [])];
  }

  lemma TopOff(stack: seq<Pending>)
    requires stack != []
    ensures var top, rest := stack[|stack| - 1], stack[..|stack| - 1];
            && PendingFiles(stack) == LeftFiles(top, rest) && PendingDirectories(stack) == LeftDirectories(top, rest)
            && (PendingClean(stack) <==> LeftClean(top, rest)) && PendingWeight(stack) == 1 + LeftWeight(top, rest)
  {
  }

  /** _walk_snapshot, on a root that is an unlinked directory. */
  method WalkSnapshot(root: Listing) returns (found: Option<(map<Path, nat>, set<Path>)>)
    requires DistinctNames(root)
    ensures Walked(root, found)
  {
    ghost var all, allDirectories := Files(root, []), Directories(root, []);
    FilesAreFunctional(root, []);
    var files: map<Path, nat>, directories: set<Path>, stack: seq<Pending> := map[], {}, [Pending(root, [])];
    ghost var seen: set<(Path, nat)> := {};
    StartOfWalk(root);
    while stack != []
      invariant all == seen + PendingFiles(stack) && Matches(files, seen) && |files| <= MAX_FILES
      invariant allDirectories == directories + PendingDirectories(stack)
      invariant PendingClean(stack) <==> Clean(root, [])
      decreases PendingWeight(stack)
    {
      TopOff(stack);
      var ok;
      ok, files, directories, stack, seen := ScanDirectory(
        stack[|stack| - 1], files, directories, stack[..|stack| - 1], seen, all, allDirectories);
      if !ok {
        return None;
      }
    }
    MatchesCount(files, all);
    found := Some((files, directories));
  }

  lemma AddFile(files: map<Path, nat>, seen: set<(Path, nat)>, all: set<(Path, nat)>, path: Path, size: nat)
    requires Functional(all) && seen <= all && (path, size) in all && Matches(files, seen)
    ensures Matches(files[path := size], seen + {(path, size)})
  {
    forall f | f in seen && f.0 == path ensures f.1 == size {
      assert f in all;
    }
  }

  lemma SubsetCount(a: set<(Path, nat)>, b: set<(Path, nat)>)
    requires a <= b
    ensures |a| <= |b|
  {
    assert b == a + (b - a);
  }

  // ----- The layout check -----

  /** Every directory above a path, the root excepted. */
  ghost predicate Above(d: Path, paths: set<Path>) {
    exists p :: p in paths && 0 < |d| < |p| && p[..|d|] == d
  }

  /** Note every parent of a path, up to the root. */
  method Climb(path: Path, before: set<Path>) returns (directories: set<Path>)
    ensures forall d :: d in directories <==> d in before || (0 < |d| < |path| && path[..|d|] == d)
  {
    directories := before;
    var parent := if path == [] then [] else path[..|path| - 1];
    while parent != []
      invariant parent == [] || (|parent| < |path| && path[..|parent|] == parent)
      invariant forall d :: d in directories <==> d in before || (|parent| < |d| < |path| && path[..|d|] == d)
      decreases |parent|
    {
      directories := directories + {parent};
      parent := parent[..|parent| - 1];
      assert parent != [] ==> path[..|parent|] == parent;
    }
  }

  /** _expected_directories. */
  method ExpectedDirectories(paths: set<Path>) returns (directories: set<Path>)
    ensures forall d :: d in directories <==> Above(d, paths)
  {
    directories := {};
    var todo := paths;
    while todo != {}
      invariant todo <= paths
      invariant forall d :: d in directories <==> Above(d, paths - todo)
      decreases |todo|
    {
      var path :| path in todo;
      directories := Climb(path, directories);
      forall d ensures Above(d, paths - (todo - {path})) <==>
        Above(d, paths - todo) || (0 < |d| < |path| && path[..|d|] == d) {
        AboveOneMore(d, paths - todo, path, paths - (todo - {path}));
      }
      todo := todo - {path};
    }
    assert paths - {} == paths;
  }

  lemma AboveOneMore(d: Path, before: set<Path>, path: Path, after: set<Path>)
    requires after == before + {path}
    ensures Above(d, after) <==> Above(d, before) || (0 < |d| < |path| && path[..|d|] == d)
  {
  }

  function Paths(files: set<(Path, nat)>): set<Path> {
    set f | f in files :: f.0
  }

  /** Every directory of the tree has a file somewhere below it. */
  predicate NoEmptyDirectory(l: Listing) {
    match l
    case Nil => true
    case Cons(_, node, rest) =>
      (node.Dir? ==> HasFile(node.entries) && NoEmptyDirectory(node.entries)) && NoEmptyDirectory(rest)
  }

  predicate HasFile(l: Listing) {
    match l
    case Nil => false
    case Cons(_, node, rest) => node.File? || (node.Dir? && HasFile(node.entries)) || HasFile(rest)
  }

  lemma {:induction false} HasFileExactly(l: Listing, prefix: Path)
    ensures HasFile(l) <==> Files(l, prefix) != {}
  {
    match l
    case Nil =>
    case Cons(name, node, rest) =>
      HasFileExactly(rest, prefix);
      if node.Dir? {
        HasFileExactly(node.entries, prefix + [name]);
      } else if node.File? {
        assert (prefix + [name], node.size) in Files(l, prefix);
      }
  }

  lemma {:induction false} DirectoriesAreBelow(l: Listing, prefix: Path)
    ensures forall d | d in Directories(l, prefix) ::
              |d| > |prefix| && d[..|prefix|] == prefix && d[|prefix|] in Names(l)
  {
    match l
    case Nil =>
    case Cons(name, node, rest) =>
      DirectoriesAreBelow(rest, prefix);
      if node.Dir? {
        DirectoriesAreBelow(node.entries, prefix + [name]);
        forall d | d in Directories(node.entries, prefix + [name])
          ensures |d| > |prefix| && d[..|prefix|] == prefix && d[|prefix|] == name
        {
          assert d[..|prefix| + 1] == prefix + [name];
          assert d[..|prefix|] == d[..|prefix| + 1][..|prefix|];
          assert d[|prefix|] == d[..|prefix| + 1][|prefix|];
        }
      }
  }

  /** What is above a file, inside its tree, is a directory of the tree. */
  lemma {:induction false} ParentsAreDirectories(l: Listing, prefix: Path, f: (Path, nat), k: nat)
    requires f in Files(l, prefix) && |prefix| < k < |f.0|
    ensures f.0[..k] in Directories(l, prefix)
  {
    if f in Files(l.rest, prefix) {
      ParentsAreDirectories(l.rest, prefix, f, k);
    } else if l.node.Dir? {
      var inner := prefix + [l.name];
      FilesAreBelow(l.node.entries, inner);
      if k == |inner| {
        assert f.0[..k] == inner;
      } else {
        ParentsAreDirectories(l.node.entries, inner, f, k);
      }
    }
  }

  /** A directory of a tree without empty ones is above one of its files. */
  lemma {:induction false} DirectoriesAreParents(l: Listing, prefix: Path, d: Path)
    requires d in Directories(l, prefix) && NoEmptyDirectory(l)
    ensures exists f :: f in Files(l, prefix) && |d| < |f.0| && f.0[..|d|] == d
  {
    if d in Directories(l.rest, prefix) {
      DirectoriesAreParents(l.rest, prefix, d);
    } else {
      var inner := prefix + [l.name];
      if d == inner {
        HasFileExactly(l.node.entries, inner);
        var f :| f in Files(l.node.entries, inner);
        FilesAreBelow(l.node.entries, inner);
        assert f in Files(l, prefix);
      } else {
        DirectoriesAreParents(l.node.entries, inner, d);
        var f :| f in Files(l.node.entries, inner) && |d| < |f.0| && f.0[..|d|] == d;
        assert f in Files(l, prefix);
      }
    }
  }

  /** And a tree whose directories are all above files has no empty one. */
  lemma {:induction false} OnlyParentsMeansNoEmpty(l: Listing, prefix: Path)
    requires DistinctNames(l)
    requires forall d | d in Directories(l, prefix) ::
               exists f :: f in Files(l, prefix) && |d| < |f.0| && f.0[..|d|] == d
    ensures NoEmptyDirectory(l)
  {
    match l
    case Nil =>
    case Cons(name, node, rest) =>
      FilesAreBelow(rest, prefix);
      DirectoriesAreBelow(rest, prefix);
      forall d | d in Directories(rest, prefix)
        ensures exists f :: f in Files(rest, prefix) && |d| < |f.0| && f.0[..|d|] == d
      {
        FileStaysBeside(l, prefix, d);
      }
      OnlyParentsMeansNoEmpty(rest, prefix);
      if node.Dir? {
        var inner := prefix + [name];
        assert inner in Directories(l, prefix);
        FileStaysInside(l, prefix, inner);
        HasFileExactly(node.entries, inner);
        DirectoriesAreBelow(node.entries, inner);
        forall d | d in Directories(node.entries, inner)
          ensures exists f :: f in Files(node.entries, inner) && |d| < |f.0| && f.0[..|d|] == d
        {
          assert d in Directories(l, prefix);
          FileStaysInside(l, prefix, d);
        }
        OnlyParentsMeansNoEmpty(node.entries, inner);
      }
  }

  /** A file below a directory of the rest of a listing is in that rest. */
  lemma FileStaysBeside(l: Listing, prefix: Path, d: Path)
    requires l.Cons? && DistinctNames(l) && d in Directories(l.rest, prefix)
    requires exists f :: f in Files(l, prefix) && |d| < |f.0| && f.0[..|d|] == d
    ensures exists f :: f in Files(l.rest, prefix) && |d| < |f.0| && f.0[..|d|] == d
  {
    var f :| f in Files(l, prefix) && |d| < |f.0| && f.0[..|d|] == d;
    DirectoriesAreBelow(l.rest, prefix);
    assert f.0[|prefix|] == f.0[..|d|][|prefix|] == d[|prefix|] != l.name;
    if l.node.Dir? {
      FilesAreBelow(l.node.entries, prefix + [l.name]);
      forall g | g in Files(l.node.entries, prefix + [l.name]) ensures g.0[|prefix|] == l.name {
        assert g.0[|prefix|] == g.0[..|prefix| + 1][|prefix|];
      }
    }
  }

  /** A file below a directory of the first entry is in that entry. */
  lemma FileStaysInside(l: Listing, prefix: Path, d: Path)
    requires l.Cons? && l.node.Dir? && DistinctNames(l)
    requires |d| > |prefix| && d[..|prefix| + 1] == prefix + [l.name]
    requires exists f :: f in Files(l, prefix) && |d| < |f.0| && f.0[..|d|] == d
    ensures exists f :: f in Files(l.node.entries, prefix + [l.name]) && |d| < |f.0| && f.0[..|d|] == d
  {
    var f :| f in Files(l, prefix) && |d| < |f.0| && f.0[..|d|] == d;
    assert f.0[|prefix|] == f.0[..|d|][|prefix|] == d[..|prefix| + 1][|prefix|] == l.name;
    FilesAreBelow(l.rest, prefix);
  }

  /** The directories of a tree are those above its files exactly when none is empty. */
  lemma LayoutExactly(root: Listing, directories: set<Path>)
    requires DistinctNames(root)
    requires forall d :: d in directories <==> Above(d, Paths(Files(root, [])))
    ensures Directories(root, []) == directories <==> NoEmptyDirectory(root)
  {
    var files := Files(root, []);
    DirectoriesAreBelow(root, []);
    forall d | d in directories ensures d in Directories(root, []) {
      var p :| p in Paths(files) && 0 < |d| < |p| && p[..|d|] == d;
      var f :| f in files && f.0 == p;
      ParentsAreDirectories(root, [], f, |d|);
    }
    if NoEmptyDirectory(root) {
      forall d | d in Directories(root, []) ensures d in directories {
        DirectoriesAreParents(root, [], d);
        var f :| f in files && |d| < |f.0| && f.0[..|d|] == d;
        assert f.0 in Paths(files);
      }
    }
    if Directories(root, []) == directories {
      forall d | d in Directories(root, []) ensures exists f :: f in files && |d| < |f.0| && f.0[..|d|] == d {
        var p :| p in Paths(files) && 0 < |d| < |p| && p[..|d|] == d;
        var f :| f in files && f.0 == p;
      }
      OnlyParentsMeansNoEmpty(root, []);
    }
  }

  /** verify_snapshot up to the digests: accepted exactly when the tree may be used, holds the manifest's
      files at their sizes and no other, and has no empty directory. */
  method VerifyLayout(root: Listing, manifest: map<Path, nat>) returns (accepted: bool)
    requires DistinctNames(root)
    ensures accepted <==>
              && Clean(root, []) && |Files(root, [])| <= MAX_FILES
              && Matches(manifest, Files(root, [])) && NoEmptyDirectory(root)
  {
    var found := WalkSnapshot(root);
    if found.None? {
      return false;
    }
    var expected := ExpectedDirectories(manifest.Keys);
    SameFiles(found.value.0, manifest, Files(root, []));
    if found.value.0 != manifest {
      return false;
    }
    assert manifest.Keys == Paths(Files(root, []));
    LayoutExactly(root, expected);
    accepted := found.value.1 == expected;
  }

  lemma SameFiles(a: map<Path, nat>, b: map<Path, nat>, entries: set<(Path, nat)>)
    requires Matches(a, entries)
    ensures a == b <==> Matches(b, entries)
    ensures a.Keys == Paths(entries)
  {
    if Matches(b, entries) {
      forall p ensures p in a <==> p in b {
        if p in a {
          assert (p, a[p]) in entries;
        }
        if p in b {
          assert (p, b[p]) in entries;
        }
      }
      forall p | p in a ensures a[p] == b[p] {
        assert (p, a[p]) in entries;
      }
    }
    forall p ensures p in a.Keys <==> p in Paths(entries) {
      if p in a.Keys {
        assert (p, a[p]) in entries;
      }
    }
  }
}
