/** Installing the audited package: directories first, files second, links last.  The file system follows
    links physically; the installer reasons about them lexically. */
module PackageInstall {
  import opened Prelude
  import opened LinkTargets
  import opened Text
  import opened TarArchive

  /** A directory's mode is None when it was only made as somebody's parent. */
  datatype Node = Dir(mode: Option<nat>) | File(permissions: nat, content: seq<Byte>) | Symlink(raw: string)

  /** What lies below the install root, by component path; the root itself is []. */
  type Tree = map<seq<string>, Node>

  // ----- What the file system does with a path -----

  /** Where a path ends, or that it ends nowhere, or that it leaves the install root. */
  datatype Place = Reached(path: seq<string>) | Nowhere | Escaped

  /** Path resolution: every component but the last must be a directory or a link to one, each link is
      replaced by what it says, and too many links are an error. */
  function Lookup(tree: Tree, at: seq<string>, rest: seq<string>, fuel: nat): Place
    decreases fuel, |rest|
  {
    if rest == [] then Reached(at)
    else if rest[0] == ".." then
      if at == [] then Escaped else Lookup(tree, Parent(at), rest[1..], fuel)
    else
      var next := at + [rest[0]];
      if next !in tree then Nowhere
      else match tree[next]
        case Dir(_) => Lookup(tree, next, rest[1..], fuel)
        case File(_, _) => if |rest| == 1 then Reached(next) else Nowhere
        case Symlink(raw) => if fuel == 0 then Nowhere else Lookup(tree, at, Parts(raw) + rest[1..], fuel - 1)
  }

  const MAX_LINKS: nat := 40

  predicate IsDir(tree: Tree, path: seq<string>) {
    path in tree && tree[path].Dir?
  }

  predicate IsFile(tree: Tree, path: seq<string>) {
    path in tree && tree[path].File?
  }

  /** The root is there, and everything lies in a directory. */
  ghost predicate Grounded(tree: Tree) {
    IsDir(tree, []) && forall path {:trigger Rooted(tree, path)} :: path in tree && path != [] ==> Rooted(tree, path)
  }

  predicate Rooted(tree: Tree, path: seq<string>) {
    ".." !in path && IsDir(tree, Parent(path))
  }

  /** Every link names, lexically, a file that is there. */
  ghost predicate Harmless(tree: Tree) {
    forall path {:trigger LinkIsHarmless(tree, path)} :: path in tree && tree[path].Symlink? ==>
      LinkIsHarmless(tree, path)
  }

  predicate LinkIsHarmless(tree: Tree, path: seq<string>)
    requires path in tree && tree[path].Symlink?
  {
    path != [] && NamesFile(tree, Parent(path), Parts(tree[path].raw))
  }

  predicate NamesFile(tree: Tree, at: seq<string>, parts: seq<string>) {
    Cancel(at + parts).Some? && IsFile(tree, Cancel(at + parts).value)
  }

  lemma PlainParent(at: seq<string>)
    requires at != [] && ".." !in at
    ensures ".." !in Parent(at)
  {
    assert forall p :: p in Parent(at) ==> p in at;
  }

  lemma {:induction false} AncestorsAreDirs(tree: Tree, path: seq<string>, k: nat)
    requires Grounded(tree) && path in tree && k < |path|
    ensures IsDir(tree, path[..k])
    decreases |path|
  {
    assert Rooted(tree, path);
    if k < |path| - 1 {
      AncestorsAreDirs(tree, Parent(path), k);
      assert Parent(path)[..k] == path[..k];
    }
  }

  /** The directories a path walks through, each ".." taken at its word, are all there. */
  predicate RealWalk(tree: Tree, at: seq<string>, parts: seq<string>)
    decreases |parts|
  {
    if parts == [] then true
    else if parts[0] == ".." then at != [] && RealWalk(tree, Parent(at), parts[1..])
    else |parts| == 1 || (IsDir(tree, at + [parts[0]]) && RealWalk(tree, at + [parts[0]], parts[1..]))
  }

  lemma DirectoryIsNoFile(tree: Tree, at: seq<string>)
    requires IsDir(tree, at) && ".." !in at
    ensures !NamesFile(tree, at, [])
  {
    assert at + [] == at;
    CancelOfPlain(at);
  }

  /** Following parts that name a file lexically, and going on from there, never leaves the root and never
      reaches a directory: it ends at that file, or nowhere.  It is the file exactly when nothing is left
      to go on with and every directory on the way is real. */
  lemma {:induction false} FollowingAFileName(
      tree: Tree, at: seq<string>, parts: seq<string>, rest: seq<string>, fuel: nat)
    requires Grounded(tree) && Harmless(tree) && IsDir(tree, at) && ".." !in at && NamesFile(tree, at, parts)
    ensures Lookup(tree, at, parts + rest, fuel) ==
            if rest == [] && RealWalk(tree, at, parts) then Reached(Cancel(at + parts).value) else Nowhere
    decreases fuel, |parts|
  {
    DirectoryIsNoFile(tree, at);
    if parts == [] {
      assert false;
    } else if parts[0] == ".." {
      CancelStep(at, parts);
      PlainParent(at);
      assert Rooted(tree, at);
      assert (parts + rest)[1..] == parts[1..] + rest;
      FollowingAFileName(tree, Parent(at), parts[1..], rest, fuel);
    } else {
      var next := at + [parts[0]];
      assert (parts + rest)[1..] == parts[1..] + rest && Parent(next) == at;
      CancelPush(at, parts);
      if |parts| == 1 {
        assert next + parts[1..] == next;
        CancelOfPlain(next);
      } else if next in tree && tree[next].Symlink? {
        assert LinkIsHarmless(tree, next);
        if fuel > 0 {
          FollowingAFileName(tree, at, Parts(tree[next].raw), parts[1..] + rest, fuel - 1);
        }
      } else if IsDir(tree, next) {
        FollowingAFileName(tree, next, parts[1..], rest, fuel);
      }
    }
  }

  /** What the file system makes of a plain path that starts at a directory: the lexical path if that is a
      directory, and no directory otherwise.  In no case does it leave the root. */
  lemma {:induction false} DirectoriesAreLexical(tree: Tree, at: seq<string>, rest: seq<string>, fuel: nat)
    requires Grounded(tree) && Harmless(tree) && IsDir(tree, at) && ".." !in at && ".." !in rest
    ensures IsDir(tree, at + rest) ==> Lookup(tree, at, rest, fuel) == Reached(at + rest)
    ensures !IsDir(tree, at + rest) ==> !Lookup(tree, at, rest, fuel).Escaped?
    ensures var place := Lookup(tree, at, rest, fuel);
            !IsDir(tree, at + rest) && place.Reached? ==> IsFile(tree, place.path)
    decreases |rest|
  {
    if rest == [] {
      assert at + rest == at;
    } else {
      var next := at + [rest[0]];
      assert rest[0] in rest && at + rest == next + rest[1..] && Parent(next) == at;
      assert at + rest in tree && |rest| > 1 ==> IsDir(tree, next) by {
        if at + rest in tree && |rest| > 1 {
          AncestorsAreDirs(tree, at + rest, |next|);
          assert (at + rest)[..|next|] == next;
        }
      }
      if IsDir(tree, next) {
        assert ".." !in rest[1..] by {
          assert forall p :: p in rest[1..] ==> p in rest;
        }
        DirectoriesAreLexical(tree, next, rest[1..], fuel);
      } else if next in tree && tree[next].Symlink? && fuel > 0 {
        assert LinkIsHarmless(tree, next);
        FollowingAFileName(tree, at, Parts(tree[next].raw), rest[1..], fuel - 1);
      } else if |rest| == 1 {
        assert at + rest == next;
      }
    }
  }

  /** Where the file system finds the directory a path is in. */
  function DirectoryOf(tree: Tree, path: seq<string>): Place
    requires path != []
  {
    Lookup(tree, [], Parent(path), MAX_LINKS)
  }

  /** Never outside the root, and if it is a directory, the one the path says. */
  lemma PlacesAreLexical(tree: Tree, path: seq<string>)
    requires Grounded(tree) && Harmless(tree) && path != [] && ".." !in path
    ensures var place := DirectoryOf(tree, path);
            && !place.Escaped?
            && (place.Reached? && IsDir(tree, place.path) ==>
                  IsDir(tree, Parent(path)) && place.path + [path[|path| - 1]] == path)
  {
    PlainParent(path);
    DirectoriesAreLexical(tree, [], Parent(path), MAX_LINKS);
    assert [] + Parent(path) == Parent(path) && Parent(path) + [path[|path| - 1]] == path;
  }

  /** On disk a link leads to the file it names lexically exactly when every directory its text walks through
      is real; otherwise it dangles.  It never leads anywhere else. */
  lemma LinkLeadsExactly(tree: Tree, path: seq<string>)
    requires Grounded(tree) && Harmless(tree) && path in tree && tree[path].Symlink?
    ensures LinkIsHarmless(tree, path) && Rooted(tree, path)
    ensures var parts := Parts(tree[path].raw);
            Lookup(tree, Parent(path), [path[|path| - 1]], MAX_LINKS) ==
            if RealWalk(tree, Parent(path), parts) then Reached(Cancel(Parent(path) + parts).value) else Nowhere
  {
    assert LinkIsHarmless(tree, path) && Rooted(tree, path);
    var at, parts := Parent(path), Parts(tree[path].raw);
    assert at + [path[|path| - 1]] == path;
    assert path[|path| - 1] in path;
    PlainParent(path);
    assert parts + [path[|path| - 1]][1..] == parts + [];
    FollowingAFileName(tree, at, parts, [], MAX_LINKS - 1);
  }

  /** A small tree: one file, and a link whose text goes through a directory that is not there. */
  function Dangling(): Tree {
    map[[] := Dir(None), [APP] := Dir(None), [APP, "f"] := File(0, []), [APP, "l"] := Symlink("x/../f")]
  }

  const RAW := "x/../f"

  lemma RawParts()
    ensures Parts(RAW) == ["x", "..", "f"]
  {
    var raw := ["x", "..", "f"];
    assert Components(raw);
    assert Join(raw) == "x" + "/" + ("../" + "f") == RAW by {
      assert raw[1..] == ["..", "f"] && ["..", "f"][1..] == ["f"];
    }
    PartsOfJoin(raw);
  }

  lemma TwoParts(name: string)
    requires Component(name)
    ensures Parts(APP + "/" + name) == [APP, name] && AsPosix([APP, name]) == APP + "/" + name
  {
    assert Component(APP) && [APP, name][1..] == [name];
    PartsOfJoin([APP, name]);
  }

  lemma DanglingTarget()
    ensures Cancel([APP] + ["x", "..", "f"]) == Some([APP, "f"])
  {
    assert [APP] + ["x", "..", "f"] == [APP, "x"] + ["..", "f"];
    CancelStep([APP, "x"], ["..", "f"]);
    assert Parent([APP, "x"]) + ["..", "f"][1..] == [APP, "f"];
    CancelOfPlain([APP, "f"]);
  }

  lemma PlainName(name: string)
    requires forall i :: 0 <= i < |name| ==> name[i] != '\\' && name[i] >= ' '
    ensures !HasBadChars(name)
  {
  }

  lemma LinkPathIsArtifact()
    ensures ArtifactPath(APP + "/f") && Parts(APP + "/f") == [APP, "f"] && AsPosix([APP, "f"]) == APP + "/f"
    ensures Parts(APP + "/l") == [APP, "l"]
  {
    assert APP + "/" + "f" == APP + "/f" && APP + "/" + "l" == APP + "/l";
    TwoParts("f");
    TwoParts("l");
    PlainName(APP + "/f");
  }

  lemma DanglingLookup()
    ensures Lookup(Dangling(), [APP], ["l"], MAX_LINKS) == Nowhere
  {
    RawParts();
    assert [APP] + ["l"] == [APP, "l"] && ["x", "..", "f"] + ["l"][1..] == ["x", "..", "f"];
    assert [APP] + ["x"] !in Dangling() by {
      assert ([APP] + ["x"])[1][0] == 'x' && [APP, "f"][1][0] == 'f' && [APP, "l"][1][0] == 'l';
    }
  }

  /** What a link means lexically is not what it means on disk: this one names the file, and dangles. */
  lemma LexicalIsNotPhysical()
    ensures Target(APP + "/l", RAW) == Some(APP + "/f")
    ensures Lookup(Dangling(), [APP], ["l"], MAX_LINKS) == Nowhere
  {
    RawParts();
    LinkPathIsArtifact();
    DanglingTarget();
    PlainName(RAW);
    assert Parent([APP, "l"]) == [APP];
    DanglingLookup();
  }

  // ----- The audited package -----

  /** The members of the audited archive, each with the digest its artifact records. */
  datatype Package = Package(members: seq<Member>, digests: seq<nat>)

  /** What a member is to become, and where. */
  datatype Item = Item(path: seq<string>, node: Node)

  function PathOf(m: Member): seq<string> {
    if InstallMemberPath(m.name).None? then [] else Parts(InstallMemberPath(m.name).value)
  }

  function NodeOf(m: Member): Node {
    match m.kind
    case DirMember => Dir(Some(m.mode))
    case FileMember => File(m.mode, m.content)
    case _ => Symlink(m.linkname)
  }

  function Items(members: seq<Member>): (items: seq<Item>)
    ensures |items| == |members|
    ensures forall i :: 0 <= i < |members| ==> items[i] == Item(PathOf(members[i]), NodeOf(members[i]))
  {
    seq(|members|, i requires 0 <= i < |members| => Item(PathOf(members[i]), NodeOf(members[i])))
  }

  function LinkTarget(m: Member): Option<string> {
    if InstallMemberPath(m.name).None? then None else Target(InstallMemberPath(m.name).value, m.linkname)
  }

  /** The member at this place is the file named so. */
  predicate IsFileNamed(m: Member, name: string) {
    m.kind == FileMember && InstallMemberPath(m.name) == Some(name)
  }

  /** What the audit of the same archive has checked: valid and distinct names, nothing but directories, files
      and links, files as recorded, and links whose lexical target is one of the files. */
  ghost predicate Audited(package: Package, host: Host) {
    var ms := package.members;
    && |package.digests| == |ms|
    && (forall i :: 0 <= i < |ms| ==> AuditedMember(ms, ms[i], package.digests[i], host))
    && DistinctMembers(ms)
  }

  /** No two members have one path. */
  predicate DistinctMembers(ms: seq<Member>) {
    forall i, j :: 0 <= i < j < |ms| ==> PathOf(ms[i]) != PathOf(ms[j])
  }

  ghost predicate AuditedMember(ms: seq<Member>, m: Member, digest: nat, host: Host) {
    InstallMemberPath(m.name).Some? &&
    match m.kind
    case DirMember => true
    case FileMember => host.sha(m.content) == digest
    case LinkMember => LinkTarget(m).Some? && NamesAFile(ms, LinkTarget(m).value)
    case OtherMember => false
  }

  ghost predicate NamesAFile(ms: seq<Member>, target: string) {
    exists j :: 0 <= j < |ms| && IsFileNamed(ms[j], target)
  }

  /** What that makes of the items: plain paths, none of them twice, and links that name a file among them. */
  ghost predicate WellFormed(items: seq<Item>) {
    && (forall i :: 0 <= i < |items| ==> items[i].path != [] && items[i].path[0] == APP && ".." !in items[i].path)
    && (forall i, j :: 0 <= i < j < |items| ==> items[i].path != items[j].path)
    && (forall i :: 0 <= i < |items| && items[i].node.Symlink? ==> NamesItem(items, items[i]))
  }

  ghost predicate NamesItem(items: seq<Item>, link: Item)
    requires link.node.Symlink?
  {
    var target := Cancel(Parent(link.path) + Parts(link.node.raw));
    target.Some? && exists j :: 0 <= j < |items| && items[j].path == target.value && items[j].node.File?
  }

  lemma NamedPath(m: Member)
    requires InstallMemberPath(m.name).Some?
    ensures PathOf(m) != [] && PathOf(m)[0] == APP && ".." !in PathOf(m)
  {
  }

  lemma AuditedItems(package: Package, host: Host)
    requires Audited(package, host)
    ensures WellFormed(Items(package.members))
  {
    var items := Items(package.members);
    forall i | 0 <= i < |items| ensures items[i].path != [] && items[i].path[0] == APP && ".." !in items[i].path {
      assert AuditedMember(package.members, package.members[i], package.digests[i], host);
      NamedPath(package.members[i]);
    }
    forall i | 0 <= i < |items| && items[i].node.Symlink? ensures NamesItem(items, items[i]) {
      assert AuditedMember(package.members, package.members[i], package.digests[i], host);
      assert package.members[i].kind == LinkMember;
      AuditedLinkAt(package.members, i, LinkTarget(package.members[i]).value);
    }
  }

  lemma AuditedLinkAt(ms: seq<Member>, i: nat, target: string)
    requires i < |ms| && ms[i].kind == LinkMember && LinkTarget(ms[i]) == Some(target) && NamesAFile(ms, target)
    ensures NamesItem(Items(ms), Items(ms)[i])
  {
    var j :| 0 <= j < |ms| && IsFileNamed(ms[j], target);
    AuditedLink(ms, i, j);
  }

  lemma AuditedLink(ms: seq<Member>, i: nat, j: nat)
    requires i < |ms| && j < |ms| && ms[i].kind == LinkMember
    requires LinkTarget(ms[i]).Some? && IsFileNamed(ms[j], LinkTarget(ms[i]).value)
    ensures NamesItem(Items(ms), Items(ms)[i])
  {
    var name, target := InstallMemberPath(ms[i].name).value, LinkTarget(ms[i]).value;
    var link := Items(ms)[i];
    assert link.path == Parts(name) && link.node == Symlink(ms[i].linkname);
    TargetParts(name, ms[i].linkname);
    assert Items(ms)[j].path == Parts(target);
  }

  lemma {:induction false} CancelKeepsComponents(parts: seq<string>)
    requires Components(parts) && Cancel(parts).Some?
    ensures Components(Cancel(parts).value)
    decreases |parts|
  {
    var i := FirstUp(parts);
    if 0 < i < |parts| {
      var shorter := parts[..i - 1] + parts[i + 1..];
      forall k | 0 <= k < |shorter| ensures Component(shorter[k]) {
        assert Component(parts[if k < i - 1 then k else k + 2]);
      }
      CancelKeepsComponents(shorter);
    }
  }

  /** A lexical target, read as a path, is where the link's components lead lexically. */
  lemma TargetParts(name: string, raw: string)
    requires Target(name, raw).Some?
    ensures Cancel(Parent(Parts(name)) + Parts(raw)) == Some(Parts(Target(name, raw).value))
  {
    var parts := Cancel(Parent(Parts(name)) + Parts(raw)).value;
    JoinedPartsAreComponents(name, raw);
    CancelKeepsComponents(Parent(Parts(name)) + Parts(raw));
    if parts != [] {
      PartsOfJoin(parts);
    }
  }

  // ----- The tree while it is built -----

  /** Nothing is there but the items and the directories they lie in. */
  ghost predicate Explained(tree: Tree, items: seq<Item>) {
    && Grounded(tree)
    && forall path {:trigger ExplainedAt(tree, items, path)} :: path in tree && path != [] ==>
       ExplainedAt(tree, items, path)
  }

  ghost predicate ExplainedAt(tree: Tree, items: seq<Item>, path: seq<string>)
    requires path in tree
  {
    OfSome(items, path, tree[path])
  }

  ghost predicate OfSome(items: seq<Item>, path: seq<string>, node: Node) {
    if node == Dir(None) then Within(items, path) else Item(path, node) in items
  }

  /** The path is that of a directory among the items, or of one that such a directory or a file lies in.  Links do
      not count: the directory of a link is not made for it. */
  ghost predicate Within(items: seq<Item>, path: seq<string>) {
    exists i :: 0 <= i < |items| && Leads(path, items[i])
  }

  predicate Leads(path: seq<string>, item: Item) {
    path <= item.path && (item.node.Dir? || (item.node.File? && path != item.path))
  }

  lemma PrefixWithin(items: seq<Item>, path: seq<string>, longer: seq<string>)
    requires Within(items, longer) && path <= longer
    ensures Within(items, path)
  {
    var i :| 0 <= i < |items| && Leads(longer, items[i]);
    assert Leads(path, items[i]);
  }

  /** What the three passes can install: no file or link stands where another item needs a directory, and every
      link lies in a directory that is made for something else. */
  ghost predicate Installable(items: seq<Item>) {
    && (forall i, j :: 0 <= i < |items| && 0 <= j < |items| ==> !Obstructs(items[i], items[j]))
    && (forall i :: 0 <= i < |items| && items[i].node.Symlink? ==> Within(items, Parent(items[i].path)))
  }

  /** A file or link stands where another item needs a directory. */
  predicate Obstructs(a: Item, b: Item) {
    !a.node.Dir? && a.path <= b.path && a != b
  }

  lemma LeadIsClear(a: Item, b: Item, path: seq<string>)
    requires !Obstructs(a, b)
    ensures Leads(path, b) && a.path <= path ==> a.node.Dir?
  {
  }

  /** Nothing but directories lies on the way to this path, or there. */
  predicate Open(tree: Tree, path: seq<string>) {
    forall p | p in tree && p <= path :: tree[p].Dir?
  }

  /** So it is, in a tree of an installable list, for the directories it needs. */
  lemma WayIsOpen(tree: Tree, items: seq<Item>, path: seq<string>)
    requires Explained(tree, items) && Installable(items) && Within(items, path)
    ensures Open(tree, path)
  {
    var j :| 0 <= j < |items| && Leads(path, items[j]);
    forall i | 0 <= i < |items| ensures items[i].path <= path ==> items[i].node.Dir? {
      LeadIsClear(items[i], items[j], path);
    }
    forall p | p in tree && p <= path ensures tree[p].Dir? {
      assert p != [] ==> ExplainedAt(tree, items, p);
    }
  }

  /** The place of an item that is not made yet is free. */
  lemma PlaceIsFree(tree: Tree, items: seq<Item>, i: nat)
    requires Explained(tree, items) && WellFormed(items) && Installable(items)
    requires i < |items| && !items[i].node.Dir? && !Has(tree, items[i])
    ensures items[i].path !in tree
  {
    var path := items[i].path;
    assert path in tree ==> ExplainedAt(tree, items, path);
    forall j | 0 <= j < |items| ensures !Leads(path, items[j]) {
      LeadIsClear(items[i], items[j], path);
    }
  }

  /** What was made exactly was installable. */
  lemma MadeWasInstallable(tree: Tree, items: seq<Item>)
    requires WellFormed(items) && Exactly(tree, items)
    ensures Installable(items)
  {
    forall i, j | 0 <= i < |items| && 0 <= j < |items| ensures !Obstructs(items[i], items[j]) {
      assert Has(tree, items[i]) && Has(tree, items[j]);
      if items[i] != items[j] && items[i].path <= items[j].path {
        assert items[j].path[..|items[i].path|] == items[i].path;
        AncestorsAreDirs(tree, items[j].path, |items[i].path|);
      }
    }
    forall i | 0 <= i < |items| && items[i].node.Symlink? ensures Within(items, Parent(items[i].path)) {
      assert Has(tree, items[i]) && Rooted(tree, items[i].path);
      LinksDirectory(tree, items, items[i]);
    }
  }

  lemma LinksDirectory(tree: Tree, items: seq<Item>, link: Item)
    requires WellFormed(items) && Exactly(tree, items) && link in items && link.node.Symlink? && link.path != []
    requires IsDir(tree, Parent(link.path))
    ensures Within(items, Parent(link.path))
  {
    var parent := Parent(link.path);
    if parent == [] {
      assert NamesItem(items, link);
      var j :| 0 <= j < |items| && items[j].node.File?;
      assert Leads(parent, items[j]);
    } else {
      assert ExplainedAt(tree, items, parent);
      if tree[parent] != Dir(None) {
        var j :| 0 <= j < |items| && items[j] == Item(parent, tree[parent]);
        assert Leads(parent, items[j]);
      }
    }
  }

  /** Every item lies in a directory among the items, up to the application's own. */
  ghost predicate Complete(items: seq<Item>) {
    forall i :: 0 <= i < |items| && |items[i].path| > 1 ==> HasDirectory(items, Parent(items[i].path))
  }

  ghost predicate HasDirectory(items: seq<Item>, path: seq<string>) {
    exists j :: 0 <= j < |items| && items[j].node.Dir? && items[j].path == path
  }

  lemma {:induction false} WholeWayUp(items: seq<Item>, path: seq<string>, k: nat)
    requires Complete(items) && 0 < k < |path| && HasDirectory(items, Parent(path))
    ensures HasDirectory(items, path[..k])
    decreases |path|
  {
    var parent := Parent(path);
    if k < |parent| {
      var j :| 0 <= j < |items| && items[j].node.Dir? && items[j].path == parent;
      WholeWayUp(items, parent, k);
      assert parent[..k] == path[..k];
    } else {
      assert path[..k] == parent;
    }
  }

  /** An archive that has all its directories, as the builder's walk of the bundle gives them, can be installed. */
  lemma CompleteIsInstallable(items: seq<Item>)
    requires WellFormed(items) && Complete(items)
    ensures Installable(items)
  {
    forall i, j | 0 <= i < |items| && 0 <= j < |items| ensures !Obstructs(items[i], items[j]) {
      NothingObstructs(items, i, j);
    }
    forall i | 0 <= i < |items| && items[i].node.Symlink? ensures Within(items, Parent(items[i].path)) {
      LinkIsWithin(items, items[i]);
    }
  }

  lemma NothingObstructs(items: seq<Item>, i: nat, j: nat)
    requires WellFormed(items) && Complete(items) && i < |items| && j < |items|
    ensures !Obstructs(items[i], items[j])
  {
    var k := |items[i].path|;
    if k < |items[j].path| && items[j].path[..k] == items[i].path {
      WholeWayUp(items, items[j].path, k);
      var m :| 0 <= m < |items| && items[m].node.Dir? && items[m].path == items[i].path;
      assert m == i;
    }
  }

  lemma LinkIsWithin(items: seq<Item>, link: Item)
    requires WellFormed(items) && Complete(items) && link in items && link.node.Symlink?
    ensures link.path != [] && Within(items, Parent(link.path))
  {
    var parent := Parent(link.path);
    if parent == [] {
      assert NamesItem(items, link);
      var j :| 0 <= j < |items| && items[j].node.File?;
      assert Leads(parent, items[j]);
    } else {
      assert HasDirectory(items, parent);
      var j :| 0 <= j < |items| && items[j].node.Dir? && items[j].path == parent;
      assert Leads(parent, items[j]);
    }
  }

  /** A package of one file and, in a directory of its own, one link to it. */
  function LinkAlone(host: Host): Package {
    Package(
      [Member(APP + "/f", FileMember, 0, "", []), Member(APP + "/x/l", LinkMember, 0, "../f", [])], [host.sha([]), 0])
  }

  lemma LinkAloneParts()
    ensures Parts(APP + "/x/l") == [APP, "x", "l"] && AsPosix([APP, "x", "l"]) == APP + "/x/l"
    ensures Parts("../f") == ["..", "f"]
  {
    var name, raw := [APP, "x", "l"], ["..", "f"];
    assert Components(name) && Components(raw);
    assert name[1..] == ["x", "l"] && ["x", "l"][1..] == ["l"] && raw[1..] == ["f"];
    assert Join(name) == APP + ("/" + ("x" + ("/" + "l"))) == APP + "/x/l";
    assert Join(raw) == ".." + ("/" + "f") == "../f";
    PartsOfJoin(name);
    PartsOfJoin(raw);
  }

  lemma LinkAloneNames()
    ensures InstallMemberPath(APP + "/f") == Some(APP + "/f") && InstallMemberPath(APP + "/x/l") == Some(APP + "/x/l")
  {
    LinkAloneParts();
    LinkPathIsArtifact();
    PlainName(APP + "/x/l");
    ArtifactPathInstalls(APP + "/f");
    ArtifactPathInstalls(APP + "/x/l");
  }

  lemma LinkAloneTarget()
    ensures Target(APP + "/x/l", "../f") == Some(APP + "/f")
  {
    LinkAloneParts();
    LinkPathIsArtifact();
    PlainName("../f");
    DanglingTarget();
    assert Parent([APP, "x", "l"]) == [APP, "x"] && [APP, "x"] + ["..", "f"] == [APP] + ["x", "..", "f"];
  }

  lemma LinkAloneMembers(host: Host)
    ensures var package := LinkAlone(host);
            && AuditedMember(package.members, package.members[0], package.digests[0], host)
            && AuditedMember(package.members, package.members[1], package.digests[1], host)
  {
    LinkAloneNames();
    LinkAloneTarget();
    assert IsFileNamed(LinkAlone(host).members[0], APP + "/f");
  }

  lemma PairIsDistinct(ms: seq<Member>)
    requires |ms| == 2 && PathOf(ms[0]) != PathOf(ms[1])
    ensures DistinctMembers(ms)
  {
    forall i, j | 0 <= i < j < |ms| ensures PathOf(ms[i]) != PathOf(ms[j]) {
      assert i == 0 && j == 1;
    }
  }

  lemma PairIsNotInstallable(file: Item, link: Item)
    requires file.node.File? && link.node.Symlink? && link.path != [] && !(Parent(link.path) <= file.path)
    ensures !Installable([file, link])
  {
    assert [file, link][1] == link;
    assert !Leads(Parent(link.path), file) && !Leads(Parent(link.path), link);
  }

  lemma LinkAlonePaths(host: Host)
    ensures PathOf(LinkAlone(host).members[0]) == [APP, "f"] && PathOf(LinkAlone(host).members[1]) == [APP, "x", "l"]
  {
    LinkAloneParts();
    LinkAloneNames();
    LinkPathIsArtifact();
  }

  lemma LinkAloneIsAudited(host: Host)
    ensures Audited(LinkAlone(host), host)
  {
    LinkAlonePaths(host);
    PairIsDistinct(LinkAlone(host).members);
    LinkAloneMembers(host);
  }

  lemma LinkAloneIsNotInstallable(host: Host)
    ensures !Installable(Items(LinkAlone(host).members))
  {
    LinkAlonePaths(host);
    var items := Items(LinkAlone(host).members);
    assert items == [items[0], items[1]];
    OtherDirectory();
    PairIsNotInstallable(items[0], items[1]);
  }

  lemma OtherDirectory()
    ensures Parent([APP, "x", "l"]) == [APP, "x"] && !([APP, "x"] <= [APP, "f"])
  {
    assert "x" != "f" && [APP, "x"][1] != [APP, "f"][1];
  }

  /** The audit accepts it, and the three passes cannot install it: nothing makes the directory of the link. */
  lemma AuditedIsNotInstallable(host: Host)
    ensures Audited(LinkAlone(host), host) && !Installable(Items(LinkAlone(host).members))
  {
    LinkAloneIsAudited(host);
    LinkAloneIsNotInstallable(host);
  }

  /** From this one on, none of the items of this pass is made yet. */
  ghost predicate Pending(tree: Tree, items: seq<Item>, pass: Pass, n: nat) {
    forall i {:trigger Has(tree, items[i])} :: n <= i < |items| && InPass(items[i].node, pass) ==> !Has(tree, items[i])
  }

  /** Nothing has come but directories, and something at this path. */
  predicate Adds(before: Tree, after: Tree, path: seq<string>) {
    forall p | p in after && !after[p].Dir? && p != path :: p in before && before[p] == after[p]
  }

  lemma StillPending(before: Tree, after: Tree, items: seq<Item>, pass: Pass, n: nat, k: nat, next: nat)
    requires WellFormed(items) && pass != Directories && Pending(before, items, pass, n) && k < |items| && n <= next
    requires Adds(before, after, items[k].path) && (k < next || !InPass(items[k].node, pass))
    ensures Pending(after, items, pass, next)
  {
    forall j | next <= j < |items| && InPass(items[j].node, pass) ensures !Has(after, items[j]) {
      assert j != k;
      assert !Has(before, items[j]);
    }
  }

  datatype Pass = Directories | Files | Links

  predicate InPass(node: Node, pass: Pass) {
    match pass
    case Directories => node.Dir?
    case Files => node.File?
    case Links => node.Symlink?
  }

  predicate Has(tree: Tree, item: Item) {
    item.path in tree && tree[item.path] == item.node
  }

  /** Of the first n items, those of this pass are there as they are. */
  ghost predicate Made(tree: Tree, items: seq<Item>, pass: Pass, n: nat) {
    forall i {:trigger Has(tree, items[i])} :: 0 <= i < n && i < |items| && InPass(items[i].node, pass) ==>
      Has(tree, items[i])
  }

  /** Exactly the items, and the directories they lie in. */
  ghost predicate Exactly(tree: Tree, items: seq<Item>) {
    Explained(tree, items) && forall i {:trigger Has(tree, items[i])} :: 0 <= i < |items| ==> Has(tree, items[i])
  }

  predicate NoLinks(tree: Tree) {
    forall path | path in tree :: !tree[path].Symlink?
  }

  /** What there was is still there, unchanged. */
  predicate Extends(before: Tree, after: Tree) {
    forall path | path in before :: path in after && after[path] == before[path]
  }

  /** What was there still is, and what has come are directories made as parents. */
  predicate OnlyParents(before: Tree, after: Tree) {
    Extends(before, after) && forall path | path in after && path !in before :: after[path] == Dir(None)
  }

  lemma OnlyParentsTwice(a: Tree, b: Tree, c: Tree)
    requires OnlyParents(a, b) && OnlyParents(b, c)
    ensures OnlyParents(a, c)
  {
  }

  /** In order, and still without links. */
  ghost predicate Building(tree: Tree, items: seq<Item>) {
    Grounded(tree) && NoLinks(tree) && Explained(tree, items)
  }

  // ----- Extraction -----

  datatype Step = Works | FailsBefore | FailsAfter

  /** How the installation ends. */
  datatype Outcome = Refused | RolledBack | Unverified | Installed

  datatype Op = MakesRoot | Creates(path: seq<string>) | SetsMode(path: seq<string>) | RemovesRoot

  class Installer {
    const script: seq<Step>
    var made: seq<Op>           // the calls made so far
    var tree: Option<Tree>      // what lies at the install root

    constructor (script: seq<Step>, tree: Option<Tree>)
      ensures this.script == script && made == [] && this.tree == tree
    {
      this.script, made, this.tree := script, [], tree;
    }

    /** How the i-th call goes. */
    function At(i: nat): Step {
      if i < |script| then script[i] else FailsBefore
    }

    method Next(op: Op) returns (step: Step)
      modifies this`made
      ensures step == At(old(|made|)) && made == old(made) + [op]
    {
      step, made := At(|made|), made + [op];
    }

    /** These calls worked, from one number up to another. */
    predicate Went(from: nat, to: int) {
      forall i :: from <= i < to ==> At(i) == Works
    }

    /** All the calls from this one on worked. */
    predicate AllWent(from: nat)
      reads this`made
    {
      Went(from, |made|)
    }

    function Last(): Option<Op>
      reads this`made
    {
      if made == [] then None else Some(made[|made| - 1])
    }

    /** The last call of all was to remove the root, and that is what `removed` tells. */
    ghost predicate Undone(removed: bool)
      reads this
    {
      match Last()
      case None => false
      case Some(call) =>
        && call == RemovesRoot && (removed <==> At(|made| - 1) != FailsBefore) && (removed <==> tree == None)
    }

    ghost predicate Sound()
      reads this`tree
    {
      tree.Some? && Grounded(tree.value) && Harmless(tree.value)
    }

    /** Create something new at a path, wherever the file system takes the path to be: open with "xb", mkdir,
        symlink. */
    method Place(path: seq<string>, node: Node) returns (ok: bool)
      requires Sound() && path != [] && ".." !in path
      modifies this
      ensures tree.Some?
      ensures ok ==> IsDir(old(tree).value, Parent(path)) && path !in old(tree).value
      ensures ok ==> tree == Some(old(tree).value[path := node])
      ensures made == old(made) + [Creates(path)]
      ensures ok <==> AllWent(old(|made|)) && IsDir(old(tree).value, Parent(path)) && path !in old(tree).value
    {
      var step := Next(Creates(path));
      if step == FailsBefore {
        return false;
      }
      PlacesAreLexical(tree.value, path);
      PlainParent(path);
      DirectoriesAreLexical(tree.value, [], Parent(path), MAX_LINKS);
      assert [] + Parent(path) == Parent(path);
      var place := DirectoryOf(tree.value, path);
      if place.Nowhere? || !IsDir(tree.value, place.path) {
        return false;
      }
      var target := place.path + [path[|path| - 1]];
      if target in tree.value {
        return false;
      }
      tree := Some(tree.value[target := node]);
      ok := step == Works;
    }

    /** mkdir of one directory whose parent is there, where no link exists yet; one that exists will do. */
    method MakeDir(path: seq<string>, ghost items: seq<Item>) returns (ok: bool)
      requires tree.Some? && Building(tree.value, items) && Within(items, path)
      requires path != [] && ".." !in path && IsDir(tree.value, Parent(path))
      modifies this
      ensures tree.Some?
      ensures ok ==> Building(tree.value, items) && OnlyParents(old(tree).value, tree.value) && IsDir(tree.value, path)
      ensures old(made) <= made
      ensures ok <==> AllWent(old(|made|)) && (path in old(tree).value ==> old(tree).value[path].Dir?)
    {
      if path in tree.value {
        return tree.value[path].Dir?;
      }
      ghost var before := tree.value;
      ok := Place(path, Dir(None));
      if ok {
        OneMoreNode(before, items, path, Dir(None));
      }
    }

    /** mkdir with all its parents, outermost first. */
    method MakeDirs(path: seq<string>, ghost items: seq<Item>) returns (ok: bool)
      requires tree.Some? && Building(tree.value, items) && Within(items, path) && ".." !in path
      modifies this
      ensures tree.Some?
      ensures ok ==> Building(tree.value, items) && OnlyParents(old(tree).value, tree.value) && IsDir(tree.value, path)
      ensures old(made) <= made && (ok ==> AllWent(old(|made|)))
      ensures AllWent(old(|made|)) && Open(old(tree).value, path) ==> ok
      decreases |path|
    {
      if path == [] {
        return true;
      }
      PlainParent(path);
      PrefixWithin(items, Parent(path), path);
      ok := MakeDirs(Parent(path), items);
      if !ok {
        return;
      }
      ghost var before := tree.value;
      ok := MakeDir(path, items);
      if ok {
        OnlyParentsTwice(old(tree).value, before, tree.value);
      }
    }

    /** A new node that belongs where it is put. */
    method Add(path: seq<string>, node: Node, ghost items: seq<Item>) returns (ok: bool)
      requires Sound() && Explained(tree.value, items) && path != [] && ".." !in path && OfSome(items, path, node)
      requires node.Symlink? ==> NamesFile(tree.value, Parent(path), Parts(node.raw))
      modifies this
      ensures tree.Some?
      ensures ok ==> Sound() && Explained(tree.value, items)
      ensures ok ==> Extends(old(tree).value, tree.value) && Has(tree.value, Item(path, node))
      ensures ok && !node.Symlink? && NoLinks(old(tree).value) ==> NoLinks(tree.value)
      ensures ok ==> Adds(old(tree).value, tree.value, path)
      ensures made == old(made) + [Creates(path)]
      ensures ok <==> AllWent(old(|made|)) && IsDir(old(tree).value, Parent(path)) && path !in old(tree).value
    {
      ghost var before := tree.value;
      ok := Place(path, node);
      if ok {
        OneMoreNode(before, items, path, node);
      }
    }

    /** The first pass at one item: the directory, with its mode. */
    method ExtractDir(item: Item, ghost items: seq<Item>) returns (ok: bool)
      requires tree.Some? && Building(tree.value, items) && Usable(item, items) && item.node.Dir?
      modifies this
      ensures tree.Some?
      ensures ok ==> Building(tree.value, items)
      ensures ok ==> ExtendsBut(old(tree).value, tree.value, item.path) && Has(tree.value, item)
      ensures ok ==> Adds(old(tree).value, tree.value, item.path)
      ensures old(made) <= made && (ok ==> AllWent(old(|made|)))
      ensures AllWent(old(|made|)) && Installable(items) ==> ok
    {
      LeadsToItself(items, item);
      if Installable(items) {
        WayIsOpen(tree.value, items, item.path);
      }
      ok := MakeDirs(item.path, items);
      if !ok {
        return;
      }
      var step := Next(SetsMode(item.path));
      if step != Works {
        return false;
      }
      ChmodKeeps(tree.value, items, item);
      tree := Some(tree.value[item.path := item.node]);
    }

    method DirectoryPass(items: seq<Item>) returns (ok: bool)
      requires tree.Some? && Building(tree.value, items) && WellFormed(items)
      modifies this
      ensures tree.Some?
      ensures ok ==> Building(tree.value, items) && Made(tree.value, items, Directories, |items|)
      ensures ok && old(Pending(tree.value, items, Files, 0)) ==> Pending(tree.value, items, Files, 0)
      ensures old(made) <= made && (ok ==> AllWent(old(|made|)))
      ensures AllWent(old(|made|)) && Installable(items) ==> ok
    {
      ok := true;
      for i := 0 to |items|
        invariant tree.Some? && Building(tree.value, items) && Made(tree.value, items, Directories, i)
        invariant old(Pending(tree.value, items, Files, 0)) ==> Pending(tree.value, items, Files, 0)
        invariant ok && old(made) <= made && AllWent(old(|made|))
      {
        if items[i].node.Dir? {
          ItemIsUsable(items, i);
          ghost var before := tree.value;
          ok := ExtractDir(items[i], items);
          if !ok {
            return;
          }
          OneMoreMade(before, tree.value, items, Directories, i);
          if old(Pending(tree.value, items, Files, 0)) {
            StillPending(before, tree.value, items, Files, 0, i, 0);
          }
        }
      }
    }

    /** The second pass at one item: its parents, and the file. */
    method ExtractFile(items: seq<Item>, i: nat) returns (ok: bool)
      requires tree.Some? && Building(tree.value, items) && WellFormed(items) && i < |items| && items[i].node.File?
      modifies this
      ensures tree.Some?
      ensures ok ==> Building(tree.value, items) && Extends(old(tree).value, tree.value) && Has(tree.value, items[i])
      ensures ok ==> Adds(old(tree).value, tree.value, items[i].path)
      ensures old(made) <= made && (ok ==> AllWent(old(|made|)))
      ensures AllWent(old(|made|)) && Installable(items) && !Has(old(tree).value, items[i]) ==> ok
    {
      ItemIsUsable(items, i);
      PlainParent(items[i].path);
      assert Leads(Parent(items[i].path), items[i]);
      if Installable(items) {
        WayIsOpen(tree.value, items, Parent(items[i].path));
      }
      ok := MakeDirs(Parent(items[i].path), items);
      if ok {
        if Installable(items) && !Has(tree.value, items[i]) {
          PlaceIsFree(tree.value, items, i);
        }
        ok := Add(items[i].path, items[i].node, items);
      }
    }

    method FilePass(items: seq<Item>) returns (ok: bool)
      requires tree.Some? && Building(tree.value, items) && WellFormed(items)
               && Made(tree.value, items, Directories, |items|)
      modifies this
      ensures tree.Some?
      ensures ok ==> Linking(items, 0) && Pending(tree.value, items, Links, 0)
      ensures old(made) <= made && (ok ==> AllWent(old(|made|)))
      ensures AllWent(old(|made|)) && Installable(items) && old(Pending(tree.value, items, Files, 0)) ==> ok
    {
      ok := true;
      for i := 0 to |items|
        invariant tree.Some? && Building(tree.value, items)
        invariant old(Pending(tree.value, items, Files, 0)) ==> Pending(tree.value, items, Files, i)
        invariant ok && old(made) <= made && AllWent(old(|made|))
        invariant Made(tree.value, items, Directories, |items|) && Made(tree.value, items, Files, i)
      {
        if items[i].node.File? {
          ghost var before := tree.value;
          ok := ExtractFile(items, i);
          if !ok {
            return;
          }
          OneMoreMade(before, tree.value, items, Files, i);
          AllStillMade(before, tree.value, items, Directories);
          if old(Pending(tree.value, items, Files, 0)) {
            StillPending(before, tree.value, items, Files, i, i, i + 1);
          }
        }
      }
    }

    /** In order, with all directories and files, and the first n links. */
    ghost predicate Linking(items: seq<Item>, n: nat)
      reads this
    {
      && Sound() && Explained(tree.value, items)
      && Made(tree.value, items, Directories, |items|) && Made(tree.value, items, Files, |items|)
      && Made(tree.value, items, Links, n)
    }

    /** The third pass at one item. */
    method ExtractLink(items: seq<Item>, i: nat) returns (ok: bool)
      requires WellFormed(items) && i < |items| && items[i].node.Symlink? && Linking(items, i)
      modifies this
      ensures tree.Some?
      ensures ok ==> Linking(items, i + 1) && Adds(old(tree).value, tree.value, items[i].path)
      ensures old(made) <= made && (ok ==> AllWent(old(|made|)))
      ensures AllWent(old(|made|)) && Installable(items) && !Has(old(tree).value, items[i]) ==> ok
    {
      ItemIsUsable(items, i);
      if Installable(items) && !Has(tree.value, items[i]) {
        PlaceIsFree(tree.value, items, i);
        LinkHasDirectory(tree.value, items, i);
      }
      LinkNamesFile(tree.value, items, i);
      ghost var before := tree.value;
      ok := Add(items[i].path, items[i].node, items);
      if ok {
        OneMoreMade(before, tree.value, items, Links, i);
        AllStillMade(before, tree.value, items, Directories);
        AllStillMade(before, tree.value, items, Files);
      }
    }

    /** The third pass: each link, if its lexical target is an artifact. */
    method LinkPass(members: seq<Member>, items: seq<Item>, artifacts: set<string>) returns (ok: bool)
      requires items == Items(members) && WellFormed(items) && Linking(items, 0)
      requires LinksNamed(members, artifacts) && Pending(tree.value, items, Links, 0)
      modifies this
      ensures tree.Some?
      ensures ok ==> Linking(items, |items|)
      ensures old(made) <= made && (ok ==> AllWent(old(|made|)))
      ensures AllWent(old(|made|)) && Installable(items) ==> ok
    {
      ok := true;
      for i := 0 to |items|
        invariant Linking(items, i) && Pending(tree.value, items, Links, i)
        invariant ok && old(made) <= made && AllWent(old(|made|))
      {
        if items[i].node.Symlink? {
          ok := LinkNext(members, items, i, artifacts);
          if !ok {
            return;
          }
        } else {
          NothingToMake(tree.value, items, Links, i);
        }
      }
    }

    /** One link of the third pass. */
    method LinkNext(members: seq<Member>, items: seq<Item>, i: nat, artifacts: set<string>) returns (ok: bool)
      requires items == Items(members) && WellFormed(items) && LinksNamed(members, artifacts)
      requires i < |items| && items[i].node.Symlink? && Linking(items, i) && Pending(tree.value, items, Links, i)
      modifies this
      ensures tree.Some?
      ensures ok ==> Linking(items, i + 1) && Pending(tree.value, items, Links, i + 1)
      ensures old(made) <= made && (ok ==> AllWent(old(|made|)))
      ensures AllWent(old(|made|)) && Installable(items) ==> ok
    {
      assert LinkIsNamed(members[i], artifacts);
      var allowed := AllowedLink(members[i], artifacts);
      if !allowed {
        return false;
      }
      ghost var before := tree.value;
      ok := ExtractLink(items, i);
      if ok {
        StillPending(before, tree.value, items, Links, i, i, i + 1);
      }
    }

    /** The three passes, over an empty root. */
    method Passes(members: seq<Member>, items: seq<Item>) returns (ok: bool)
      requires items == Items(members) && WellFormed(items) && tree == Some(map[[] := Dir(None)])
      requires LinksNamed(members, ArtifactNames(members))
      modifies this
      ensures tree.Some?
      ensures ok ==> Exactly(tree.value, items) && Harmless(tree.value)
      ensures old(made) <= made && (ok <==> AllWent(old(|made|)) && Installable(items))
    {
      ok := DirectoryPass(items);
      if ok {
        ok := FilePass(items);
      }
      if ok {
        ok := LinkPass(members, items, ArtifactNames(members));
      }
      if ok {
        AllMade(tree.value, items);
        MadeWasInstallable(tree.value, items);
      }
    }
  }

  lemma AllMade(tree: Tree, items: seq<Item>)
    requires Made(tree, items, Directories, |items|)
             && Made(tree, items, Files, |items|) && Made(tree, items, Links, |items|)
    ensures forall i :: 0 <= i < |items| ==> Has(tree, items[i])
  {
    forall i | 0 <= i < |items| ensures Has(tree, items[i]) {
      match items[i].node
      case Dir(_) => assert InPass(items[i].node, Directories);
      case File(_, _) => assert InPass(items[i].node, Files);
      case Symlink(_) => assert InPass(items[i].node, Links);
    }
  }

  /** What was made of the earlier items is still there when only this item's own path has changed. */
  lemma OneMoreMade(before: Tree, after: Tree, items: seq<Item>, pass: Pass, i: nat)
    requires WellFormed(items) && i < |items| && Made(before, items, pass, i)
    requires ExtendsBut(before, after, items[i].path) && Has(after, items[i])
    ensures Made(after, items, pass, i + 1)
  {
    forall j | 0 <= j < i && InPass(items[j].node, pass) ensures Has(after, items[j]) {
      assert Has(before, items[j]);
    }
  }

  lemma NothingToMake(tree: Tree, items: seq<Item>, pass: Pass, i: nat)
    requires i < |items| && Made(tree, items, pass, i) && !InPass(items[i].node, pass)
    ensures Made(tree, items, pass, i + 1)
  {
  }

  lemma AllStillMade(before: Tree, after: Tree, items: seq<Item>, pass: Pass)
    requires Made(before, items, pass, |items|) && Extends(before, after)
    ensures Made(after, items, pass, |items|)
  {
    forall j | 0 <= j < |items| && InPass(items[j].node, pass) ensures Has(after, items[j]) {
      assert Has(before, items[j]);
    }
  }

  /** Once the files are there, a link names one of them. */
  lemma LinkNamesFile(tree: Tree, items: seq<Item>, i: nat)
    requires WellFormed(items) && i < |items| && items[i].node.Symlink? && Made(tree, items, Files, |items|)
    ensures NamesFile(tree, Parent(items[i].path), Parts(items[i].node.raw))
  {
    assert NamesItem(items, items[i]);
    var target := Cancel(Parent(items[i].path) + Parts(items[i].node.raw)).value;
    var j :| 0 <= j < |items| && items[j].path == target && items[j].node.File?;
    assert Has(tree, items[j]);
  }

  /** And of an installable list its directory is there, made for something else. */
  lemma LinkHasDirectory(tree: Tree, items: seq<Item>, i: nat)
    requires Grounded(tree) && WellFormed(items) && Installable(items) && i < |items| && items[i].node.Symlink?
    requires Made(tree, items, Directories, |items|) && Made(tree, items, Files, |items|)
    ensures IsDir(tree, Parent(items[i].path))
  {
    var parent := Parent(items[i].path);
    assert Within(items, parent);
    var j :| 0 <= j < |items| && Leads(parent, items[j]);
    assert InPass(items[j].node, if items[j].node.Dir? then Directories else Files);
    assert Has(tree, items[j]);
    assert !Obstructs(items[j], items[i]);
    if parent != items[j].path {
      assert items[j].path[..|parent|] == parent;
      AncestorsAreDirs(tree, items[j].path, |parent|);
    }
  }

  /** Each link's lexical target is among these names. */
  predicate LinksNamed(members: seq<Member>, names: set<string>) {
    forall i :: 0 <= i < |members| ==> LinkIsNamed(members[i], names)
  }

  predicate LinkIsNamed(m: Member, names: set<string>) {
    NodeOf(m).Symlink? ==> LinkTarget(m).Some? && LinkTarget(m).value in names
  }

  /** What the three passes and the verification take from the audit. */
  ghost predicate Prepared(package: Package, host: Host) {
    var items := Items(package.members);
    && WellFormed(items) && LinksNamed(package.members, ArtifactNames(package.members))
    && |package.digests| == |items|
    && forall i :: 0 <= i < |items| && items[i].node.File? ==> host.sha(items[i].node.content) == package.digests[i]
  }

  lemma AuditedIsPrepared(package: Package, host: Host)
    requires Audited(package, host)
    ensures Prepared(package, host)
  {
    AuditedItems(package, host);
    AuditedLinksAreNamed(package, host);
    var ms := package.members;
    forall i | 0 <= i < |ms| && NodeOf(ms[i]).File? ensures host.sha(ms[i].content) == package.digests[i] {
      assert AuditedMember(ms, ms[i], package.digests[i], host);
    }
  }

  lemma AuditedLinksAreNamed(package: Package, host: Host)
    requires Audited(package, host)
    ensures LinksNamed(package.members, ArtifactNames(package.members))
  {
    var ms := package.members;
    forall i | 0 <= i < |ms| ensures LinkIsNamed(ms[i], ArtifactNames(ms)) {
      assert AuditedMember(ms, ms[i], package.digests[i], host);
      if ms[i].kind == LinkMember {
        TargetIsArtifact(ms, LinkTarget(ms[i]).value);
      }
    }
  }

  lemma TargetIsArtifact(ms: seq<Member>, target: string)
    requires NamesAFile(ms, target)
    ensures target in ArtifactNames(ms)
  {
    var j :| 0 <= j < |ms| && IsFileNamed(ms[j], target);
    assert ms[j] in ms;
  }

  /** A link may be made when its lexical target is an artifact. */
  method AllowedLink(m: Member, artifacts: set<string>) returns (allowed: bool)
    ensures allowed <==> LinkTarget(m).Some? && LinkTarget(m).value in artifacts
  {
    var path := InstallMemberPath(m.name);
    if path.None? {
      return false;
    }
    var target := CanonicalLinkTarget(path.value, m.linkname);
    allowed := target.Some? && target.value in artifacts;
  }

  /** An item of the list, with a path the installer can use. */
  ghost predicate Usable(item: Item, items: seq<Item>) {
    item.path != [] && ".." !in item.path && item in items
  }

  lemma LeadsToItself(items: seq<Item>, item: Item)
    requires item in items && item.node.Dir?
    ensures Within(items, item.path)
  {
    var i :| 0 <= i < |items| && items[i] == item;
    assert Leads(item.path, items[i]);
  }

  lemma ItemIsUsable(items: seq<Item>, i: nat)
    requires i < |items| && WellFormed(items)
    ensures Usable(items[i], items)
  {
    assert items[i].path <= items[i].path;
    assert items[i] == Item(items[i].path, items[i].node);
  }

  /** What was there is unchanged, except perhaps at one path. */
  predicate ExtendsBut(before: Tree, after: Tree, except: seq<string>) {
    forall path | path in before && path != except :: path in after && after[path] == before[path]
  }

  /** Setting a directory's mode keeps the tree in order. */
  lemma ChmodKeeps(tree: Tree, items: seq<Item>, item: Item)
    requires Building(tree, items) && Usable(item, items) && item.node.Dir? && IsDir(tree, item.path)
    ensures Building(tree[item.path := item.node], items)
  {
    var after := tree[item.path := item.node];
    LeadsToItself(items, item);
    forall p | p in after && p != [] ensures Rooted(after, p) {
      assert Rooted(tree, p);
    }
    forall p | p in after && p != [] ensures ExplainedAt(after, items, p) {
      assert ExplainedAt(tree, items, p);
    }
  }

  /** A new node that belongs, in a directory that is there, keeps the tree in order. */
  lemma OneMoreNode(tree: Tree, items: seq<Item>, path: seq<string>, node: Node)
    requires Grounded(tree) && Harmless(tree) && Explained(tree, items)
    requires path != [] && path !in tree && ".." !in path && IsDir(tree, Parent(path)) && OfSome(items, path, node)
    requires node.Symlink? ==> NamesFile(tree, Parent(path), Parts(node.raw))
    ensures var after := tree[path := node];
            Grounded(after) && Harmless(after) && Explained(after, items) && Extends(tree, after)
  {
    OneMoreGrounded(tree, path, node);
    OneMoreHarmless(tree, path, node);
    var after := tree[path := node];
    forall p | p in after && p != [] ensures ExplainedAt(after, items, p) {
      assert p != path ==> ExplainedAt(tree, items, p);
    }
  }

  lemma OneMoreGrounded(tree: Tree, path: seq<string>, node: Node)
    requires Grounded(tree) && path != [] && path !in tree && ".." !in path && IsDir(tree, Parent(path))
    ensures Grounded(tree[path := node])
  {
    var after := tree[path := node];
    forall p | p in after && p != [] ensures Rooted(after, p) {
      assert p != path ==> Rooted(tree, p);
    }
  }

  lemma OneMoreHarmless(tree: Tree, path: seq<string>, node: Node)
    requires Harmless(tree) && path != [] && path !in tree
    requires node.Symlink? ==> NamesFile(tree, Parent(path), Parts(node.raw))
    ensures Harmless(tree[path := node])
  {
    var after := tree[path := node];
    forall p | p in after && after[p].Symlink? ensures LinkIsHarmless(after, p) {
      assert p != path ==> LinkIsHarmless(tree, p);
    }
  }

  // ----- Verification of what was installed -----

  /** Walking down real directories only shortens a path. */
  lemma {:induction false} WalkDown(tree: Tree, at: seq<string>, mid: seq<string>, rest: seq<string>, fuel: nat)
    requires Grounded(tree) && ".." !in mid && IsDir(tree, at + mid)
    ensures Lookup(tree, at, mid + rest, fuel) == Lookup(tree, at + mid, rest, fuel)
    decreases |mid|
  {
    if mid == [] {
      assert at + mid == at && mid + rest == rest;
    } else {
      var next := at + [mid[0]];
      assert at + mid == next + mid[1..] && (mid + rest)[1..] == mid[1..] + rest && mid[0] in mid;
      assert IsDir(tree, next) by {
        if |mid| > 1 {
          AncestorsAreDirs(tree, at + mid, |next|);
          assert (at + mid)[..|next|] == next;
        } else {
          assert next == at + mid;
        }
      }
      assert ".." !in mid[1..] by {
        assert forall p :: p in mid[1..] ==> p in mid;
      }
      WalkDown(tree, next, mid[1..], rest, fuel);
    }
  }

  /** Where a link leads lexically. */
  function Lexical(link: Item): Option<seq<string>>
    requires link.node.Symlink?
  {
    Cancel(Parent(link.path) + Parts(link.node.raw))
  }

  /** On disk the link leads to the file it names, and that file has this digest. */
  predicate LinkHolds(tree: Tree, link: Item, digest: nat, host: Host)
    requires link.node.Symlink?
  {
    && RealWalk(tree, Parent(link.path), Parts(link.node.raw))
    && Lexical(link).Some? && IsFile(tree, Lexical(link).value)
    && host.sha(tree[Lexical(link).value].content) == digest
  }

  /** The check of one link: it resolves, below the product root, to something with the recorded digest. */
  method VerifyLink(tree: Tree, link: Item, digest: nat, host: Host) returns (accepted: bool)
    requires Grounded(tree) && Harmless(tree) && link.node.Symlink? && Has(tree, link) && link.path != []
    requires Lexical(link).Some? && [APP] <= Lexical(link).value
    ensures accepted <==> LinkHolds(tree, link, digest, host)
  {
    var parent, last := Parent(link.path), [link.path[|link.path| - 1]];
    assert parent + last == link.path && [] + parent == parent;
    LinkLeadsExactly(tree, link.path);
    PlainParent(link.path);
    WalkDown(tree, [], parent, last, MAX_LINKS);
    var place := Lookup(tree, [], link.path, MAX_LINKS);
    if !place.Reached? || !([APP] <= place.path) || !IsFile(tree, place.path) {
      return false;
    }
    accepted := host.sha(tree[place.path].content) == digest;
  }

  ghost predicate LinksHold(tree: Tree, items: seq<Item>, digests: seq<nat>, host: Host)
    requires |digests| == |items|
  {
    forall i :: 0 <= i < |items| && items[i].node.Symlink? ==> LinkHolds(tree, items[i], digests[i], host)
  }

  /** The item can be checked: it is there, and a link's lexical target is below the product root. */
  predicate Checkable(tree: Tree, item: Item) {
    && item.path != [] && Has(tree, item)
    && (item.node.Symlink? ==> Lexical(item).Some? && [APP] <= Lexical(item).value)
  }

  lemma AllCheckable(tree: Tree, items: seq<Item>)
    requires WellFormed(items) && Exactly(tree, items)
    ensures forall i :: 0 <= i < |items| ==> Checkable(tree, items[i])
  {
    forall i | 0 <= i < |items| ensures Checkable(tree, items[i]) {
      assert Has(tree, items[i]);
      if items[i].node.Symlink? {
        assert NamesItem(items, items[i]);
      }
    }
  }

  /** The check of one artifact. */
  method VerifyItem(tree: Tree, item: Item, digest: nat, host: Host) returns (accepted: bool)
    requires Grounded(tree) && Harmless(tree) && Checkable(tree, item)
    requires item.node.File? ==> host.sha(item.node.content) == digest
    ensures accepted <==> (item.node.Symlink? ==> LinkHolds(tree, item, digest, host))
  {
    match item.node
    case Dir(_) => accepted := true;
    case File(permissions, content) =>
      var found := tree[item.path];
      accepted := found.File? && |found.content| == |content| && found.permissions == permissions
        && host.sha(found.content) == digest;
    case Symlink(_) => accepted := VerifyLink(tree, item, digest, host);
  }

  /** _verify_install.  Of a tree the three passes made, it accepts exactly those whose links lead on disk where
      they lead lexically, to files with the digests recorded for the links. */
  method VerifyInstall(tree: Tree, items: seq<Item>, digests: seq<nat>, host: Host) returns (accepted: bool)
    requires Grounded(tree) && Harmless(tree) && |digests| == |items|
    requires forall i :: 0 <= i < |items| ==> Checkable(tree, items[i])
    requires forall i :: 0 <= i < |items| && items[i].node.File? ==> host.sha(items[i].node.content) == digests[i]
    ensures accepted <==> LinksHold(tree, items, digests, host)
  {
    for i := 0 to |items|
      invariant forall j :: 0 <= j < i && items[j].node.Symlink? ==> LinkHolds(tree, items[j], digests[j], host)
    {
      var holds := VerifyItem(tree, items[i], digests[i], host);
      if !holds {
        return false;
      }
    }
    accepted := true;
  }

  /** The paths of the artifacts: every member but the directories. */
  function ArtifactNames(members: seq<Member>): set<string> {
    set m | m in members && m.kind != DirMember && InstallMemberPath(m.name).Some? :: InstallMemberPath(m.name).value
  }

  /** _extract_package, of an archive that was audited.  It refuses a root that exists and leaves it as it is; a
      failure of any pass removes the root again; a normal return means exactly the archive's members, their
      links leading where the audit took them to lead.  When only the last verification fails, the tree stays. */
  method ExtractPackage(installer: Installer, package: Package, host: Host) returns (outcome: Outcome, removed: bool)
    requires Prepared(package, host)
    modifies installer
    ensures old(installer.tree).Some? ==> outcome == Refused
    // Over an empty place only a failing mkdir refuses; and then the passes succeed exactly when every call of theirs
    // works and the archive is one they can install.
    ensures old(installer.made) <= installer.made
    ensures old(installer.tree).None? ==> (outcome == Refused <==> installer.At(old(|installer.made|)) != Works)
    ensures outcome == Installed || outcome == Unverified ==>
              Installable(Items(package.members)) && installer.AllWent(old(|installer.made|) + 1)
    ensures outcome == RolledBack ==>
              || !Installable(Items(package.members))
              || !installer.Went(old(|installer.made|) + 1, |installer.made| - 1)
    ensures outcome == Refused ==>
              installer.tree == old(installer.tree)
                || (old(installer.tree) == None && installer.tree == Some(map[[] := Dir(None)]))
    // A failed pass is followed by the removal of the root.
    ensures outcome == RolledBack ==> installer.Undone(removed)
    ensures outcome == Installed || outcome == Unverified ==>
              && installer.tree.Some? && Exactly(installer.tree.value, Items(package.members))
              && (outcome == Installed <==>
                    LinksHold(installer.tree.value, Items(package.members), package.digests, host))
  {
    removed := false;
    if installer.tree.Some? {
      return Refused, removed;
    }
    var made := MakeRoot(installer);
    if made != Works {
      return Refused, removed;
    }
    outcome, removed := ExtractInto(installer, package, host);
  }

  method MakeRoot(installer: Installer) returns (step: Step)
    modifies installer
    ensures step == old(installer.At(|installer.made|)) && installer.made == old(installer.made) + [MakesRoot]
    ensures installer.tree == if step == FailsBefore then old(installer.tree) else Some(map[[] := Dir(None)])
  {
    step := installer.Next(MakesRoot);
    if step != FailsBefore {
      installer.tree := Some(map[[] := Dir(None)]);
    }
  }

  /** Everything after the root is made. */
  method ExtractInto(installer: Installer, package: Package, host: Host) returns (outcome: Outcome, removed: bool)
    requires Prepared(package, host) && installer.tree == Some(map[[] := Dir(None)])
    modifies installer
    ensures old(installer.made) <= installer.made && outcome != Refused
    ensures outcome == RolledBack ==> installer.Undone(removed)
    ensures if outcome == RolledBack
            then !Installable(Items(package.members))
                 || !installer.Went(old(|installer.made|), |installer.made| - 1)
            else Installable(Items(package.members)) && installer.AllWent(old(|installer.made|))
    ensures outcome != RolledBack ==>
              && installer.tree.Some? && Exactly(installer.tree.value, Items(package.members))
              && (outcome == Installed <==>
                    LinksHold(installer.tree.value, Items(package.members), package.digests, host))
  {
    removed := false;
    var items := Items(package.members);
    var ok := installer.Passes(package.members, items);
    if !ok {
      var step := installer.Next(RemovesRoot);
      removed := step != FailsBefore;
      if removed {
        installer.tree := None;
      }
      return RolledBack, removed;
    }
    AllCheckable(installer.tree.value, items);
    var verified := VerifyInstall(installer.tree.value, items, package.digests, host);
    outcome := if verified then Installed else Unverified;
  }
}
