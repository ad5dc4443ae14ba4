/** The Linux install archive: writing it from the entries of a bundle, and verifying what was written
    against the same entries.  The archive format itself is taken as faithful. */
module TarArchive {
  import opened Prelude
  import opened LinkTargets
  import opened Text

  /** A bundle's entry: what was recorded of it, and what is at its source when the archive is written. */
  datatype Entry =
    | Directory(path: string, mode: nat)
    | Link(path: string, linkTarget: string, rawTarget: string, mode: nat)
    | Plain(path: string, mode: nat, size: nat, sha: nat, source: seq<Byte>)

  datatype Kind = DirMember | LinkMember | FileMember | OtherMember

  datatype Member = Member(name: string, kind: Kind, mode: nat, linkname: string, content: seq<Byte>)

  /** What the verifier compares, path by path. */
  datatype Fact =
    | IsDirectory(mode: nat)
    | IsLink(target: Option<string>)
    | IsFile(mode: nat, size: nat, sha: nat)
    | IsOther

  /** str.casefold and SHA-256, whatever they are. */
  datatype Host = Host(fold: string -> string, sha: seq<Byte> -> nat)

  /** _validate_install_member_path. */
  function InstallMemberPath(raw: string): Option<string> {
    if raw == "" || HasBadChars(raw) then None
    else
      var normalized := if raw[|raw| - 1] == '/' then raw[..|raw| - 1] else raw;
      if normalized == "" || normalized[0] == '/' || normalized != AsPosix(Parts(normalized)) then None
      else if ".." in Parts(normalized) || Parts(normalized) == [] || Parts(normalized)[0] != APP then None
      else if |Parts(normalized)| > 1 && !ArtifactPath(normalized) then None
      else Some(normalized)
  }

  /** A path of one component that is the application's own directory. */
  lemma RootIsMember(raw: string)
    requires raw == APP && Component(raw) && !HasBadChars(raw) && raw[|raw| - 1] != '/'
    ensures InstallMemberPath(raw) == Some(raw)
  {
    PartsOfJoin([raw]);
    assert Parts(raw) == [raw] && AsPosix([raw]) == raw;
  }

  /** The application's own directory is a member path. */
  lemma AppIsMember()
    ensures InstallMemberPath(APP) == Some(APP)
  {
    RootIsMember(APP);
  }

  function EntryFact(e: Entry): Fact {
    match e
    case Directory(_, mode) => IsDirectory(mode)
    case Link(_, linkTarget, _, _) => IsLink(Some(linkTarget))
    case Plain(_, mode, size, sha, _) => IsFile(mode, size, sha)
  }

  function MemberFact(path: string, m: Member, host: Host): Fact {
    match m.kind
    case DirMember => IsDirectory(m.mode)
    case LinkMember => IsLink(Target(path, m.linkname))
    case FileMember => IsFile(m.mode, |m.content|, host.sha(m.content))
    case OtherMember => IsOther
  }

  // ----- Writing -----

  /** The member an entry becomes, or nothing when its source is shorter than its recorded size. */
  function Written(e: Entry): Option<Member> {
    match e
    case Directory(path, mode) => Some(Member(path, DirMember, mode, "", []))
    case Link(path, _, rawTarget, mode) => Some(Member(path, LinkMember, mode, rawTarget, []))
    case Plain(path, mode, size, _, source) =>
      if |source| < size then None else Some(Member(path, FileMember, mode, "", source[..size]))
  }

  /** The file became shorter than the size recorded for it. */
  predicate CutShort(e: Entry) {
    e.Plain? && |e.source| < e.size
  }

  method WriteTar(entries: seq<Entry>) returns (members: Option<seq<Member>>)
    ensures members.None? <==> exists i :: 0 <= i < |entries| && CutShort(entries[i])
    ensures members.Some? ==> Archive(members.value, entries)
  {
    var archive: seq<Member> := [];
    for i := 0 to |entries|
      invariant |archive| == i
      invariant forall j :: 0 <= j < i ==> Written(entries[j]) == Some(archive[j])
    {
      var member := Written(entries[i]);
      if member.None? {
        return None;
      }
      archive := archive + [member.value];
    }
    members := Some(archive);
  }

  ghost predicate Archive(members: seq<Member>, entries: seq<Entry>) {
    |members| == |entries| && forall i :: 0 <= i < |entries| ==> Written(entries[i]) == Some(members[i])
  }

  // ----- Verifying -----

  /** {path: entry for entry in entries}. */
  function Expected(entries: seq<Entry>): map<string, Entry> {
    if entries == [] then map[]
    else Expected(entries[..|entries| - 1])[entries[|entries| - 1].path := entries[|entries| - 1]]
  }

  /** A member under its validated name. */
  datatype Listed = Listed(path: Option<string>, member: Member)

  function List(members: seq<Member>): (listed: seq<Listed>)
    ensures |listed| == |members|
    ensures forall i :: 0 <= i < |members| ==> listed[i] == Listed(InstallMemberPath(members[i].name), members[i])
  {
    seq(|members|, i requires 0 <= i < |members| => Listed(InstallMemberPath(members[i].name), members[i]))
  }

  /** The names met so far, folded. */
  function Seen(listed: seq<Listed>, host: Host): set<string> {
    if listed == [] then {}
    else
      var path := listed[|listed| - 1].path;
      Seen(listed[..|listed| - 1], host) + (if path.Some? then {host.fold(path.value)} else {})
  }

  /** Every member has a valid name, and none folds to what an earlier one folds to. */
  predicate Readable(listed: seq<Listed>, host: Host) {
    listed == [] ||
    (var init, path := listed[..|listed| - 1], listed[|listed| - 1].path;
     Readable(init, host) && path.Some? && host.fold(path.value) !in Seen(init, host))
  }

  lemma {:induction false} ReadablePrefix(listed: seq<Listed>, host: Host, i: nat)
    requires i <= |listed| && Readable(listed, host)
    ensures Readable(listed[..i], host)
  {
    if i < |listed| {
      var init := listed[..|listed| - 1];
      ReadablePrefix(init, host, i);
      assert init[..i] == listed[..i];
    } else {
      assert listed[..i] == listed;
    }
  }

  function Actual(listed: seq<Listed>): map<string, Member> {
    if listed == [] then map[]
    else
      var init, last := Actual(listed[..|listed| - 1]), listed[|listed| - 1];
      if last.path.None? then init else init[last.path.value := last.member]
  }

  /** What an archive says, path by path; what a bundle says. */
  function Facts(actual: map<string, Member>, host: Host): map<string, Fact> {
    map path | path in actual :: MemberFact(path, actual[path], host)
  }

  function EntryFacts(expected: map<string, Entry>): map<string, Fact> {
    map path | path in expected :: EntryFact(expected[path])
  }

  /** The archive is readable and says of every path, and of no other, what the bundle says. */
  predicate Faithful(listed: seq<Listed>, entries: seq<Entry>, host: Host) {
    Readable(listed, host) && Facts(Actual(listed), host) == EntryFacts(Expected(entries))
  }

  /** _verify_tar_install_archive. */
  method VerifyTar(members: seq<Member>, entries: seq<Entry>, host: Host) returns (accepted: bool)
    ensures accepted <==> Faithful(List(members), entries, host)
  {
    var expected := Expected(entries);
    var actual := ReadMembers(List(members), host);
    if actual.None? {
      return false;
    }
    accepted := CompareMembers(actual.value, expected, host);
  }

  /** The members by path, unless a name is invalid or repeats another's folding. */
  method ReadMembers(listed: seq<Listed>, host: Host) returns (actual: Option<map<string, Member>>)
    ensures actual == if Readable(listed, host) then Some(Actual(listed)) else None
  {
    var paths: map<string, Member>, seen: set<string> := map[], {};
    for i := 0 to |listed|
      invariant Readable(listed[..i], host) && paths == Actual(listed[..i]) && seen == Seen(listed[..i], host)
    {
      assert listed[..i + 1][..i] == listed[..i] && listed[..i + 1][i] == listed[i];
      var path := listed[i].path;
      if path.None? || host.fold(path.value) in seen {
        if Readable(listed, host) {
          ReadablePrefix(listed, host, i + 1);
        }
        return None;
      }
      seen := seen + {host.fold(path.value)};
      paths := paths[path.value := listed[i].member];
    }
    assert listed[..|listed|] == listed;
    actual := Some(paths);
  }

  method CompareMembers(actual: map<string, Member>, expected: map<string, Entry>, host: Host) returns (same: bool)
    ensures same <==> Facts(actual, host) == EntryFacts(expected)
  {
    SameFacts(actual, expected, host);
    if actual.Keys != expected.Keys {
      return false;
    }
    var todo := expected.Keys;
    while todo != {}
      invariant todo <= expected.Keys
      invariant forall path | path in expected && path !in todo ::
                  MemberFact(path, actual[path], host) == EntryFact(expected[path])
      decreases |todo|
    {
      var path :| path in todo;
      if MemberFact(path, actual[path], host) != EntryFact(expected[path]) {
        return false;
      }
      todo := todo - {path};
    }
    same := true;
  }

  /** Two sets of facts are the same exactly when they are about the same paths and agree on each. */
  lemma SameFacts(actual: map<string, Member>, expected: map<string, Entry>, host: Host)
    ensures Facts(actual, host) == EntryFacts(expected) <==>
            && actual.Keys == expected.Keys
            && forall path | path in expected :: MemberFact(path, actual[path], host) == EntryFact(expected[path])
  {
    var a, e := Facts(actual, host), EntryFacts(expected);
    assert a.Keys == actual.Keys && e.Keys == expected.Keys;
    if a == e {
      assert actual.Keys == expected.Keys;
      forall path | path in expected ensures MemberFact(path, actual[path], host) == EntryFact(expected[path]) {
        assert a[path] == e[path];
      }
    }
  }

  // ----- Writing, then verifying -----

  /** An entry list as it is built from a bundle: valid paths, no two of which fold to the same. */
  ghost predicate BundleEntries(entries: seq<Entry>, host: Host) {
    && (forall i :: 0 <= i < |entries| ==> InstallMemberPath(entries[i].path) == Some(entries[i].path))
    && (forall i, j :: 0 <= i < j < |entries| ==> host.fold(entries[i].path) != host.fold(entries[j].path))
  }

  /** An artifact's path is a member's path as it is. */
  lemma ArtifactPathInstalls(path: string)
    requires ArtifactPath(path)
    ensures InstallMemberPath(path) == Some(path)
  {
    PartsAreComponents(path);
    PartsOfJoin(Parts(path));
  }

  /** The member paths of the sources, where they are valid. */
  function MemberPaths(sources: seq<Entry>): (paths: seq<Option<string>>)
    ensures |paths| == |sources|
    ensures forall i :: 0 <= i < |sources| ==> paths[i] == InstallMemberPath(sources[i].path)
  {
    seq(|sources|, i requires 0 <= i < |sources| => InstallMemberPath(sources[i].path))
  }

  /** Every path is valid, and no two fold to the same. */
  ghost predicate Apart(paths: seq<Option<string>>, host: Host) {
    && (forall i :: 0 <= i < |paths| ==> paths[i].Some?)
    && (forall i, j :: 0 <= i < j < |paths| ==> host.fold(paths[i].value) != host.fold(paths[j].value))
  }

  method CheckApart(paths: seq<Option<string>>, host: Host) returns (ok: bool)
    ensures ok <==> Apart(paths, host)
  {
    var seen: set<string> := {};
    for i := 0 to |paths|
      invariant forall k :: 0 <= k < i ==> paths[k].Some?
      invariant seen == set k | 0 <= k < i :: host.fold(paths[k].value)
      invariant forall j, k :: 0 <= j < k < i ==> host.fold(paths[j].value) != host.fold(paths[k].value)
    {
      if paths[i].None? || host.fold(paths[i].value) in seen {
        return false;
      }
      seen := seen + {host.fold(paths[i].value)};
    }
    ok := true;
  }

  /** The entry a source becomes: an artifact as it is, a directory under its member path. */
  function InstallEntry(source: Entry): Entry
    requires InstallMemberPath(source.path).Some?
  {
    if source.Directory? then Directory(InstallMemberPath(source.path).value, source.mode) else source
  }

  lemma InstallEntryIsMember(source: Entry)
    requires InstallMemberPath(source.path).Some? && (!source.Directory? ==> ArtifactPath(source.path))
    ensures var e := InstallEntry(source);
            && InstallMemberPath(source.path) == Some(e.path) && InstallMemberPath(e.path) == Some(e.path)
            && EntryFact(e) == EntryFact(source)
  {
    MemberPathIsStable(source.path);
    if !source.Directory? {
      ArtifactPathInstalls(source.path);
    }
  }

  /** _install_archive_entries, before it sorts: the directories of the bundle and its artifacts, each under its
      member path.  It returns exactly when the paths are valid and fold apart, and then it has what the archive
      writer and the verifier take as a bundle's entries; the order plays no part in either. */
  method InstallArchiveEntries(sources: seq<Entry>, host: Host) returns (r: Option<seq<Entry>>)
    requires forall i :: 0 <= i < |sources| && !sources[i].Directory? ==> ArtifactPath(sources[i].path)
    ensures r.Some? <==> Apart(MemberPaths(sources), host)
    ensures r.Some? ==> BundleEntries(r.value, host) && |r.value| == |sources|
    ensures r.Some? ==> forall i :: 0 <= i < |sources| ==>
              && MemberPaths(sources)[i] == Some(r.value[i].path) && EntryFact(r.value[i]) == EntryFact(sources[i])
              && (!sources[i].Directory? ==> r.value[i] == sources[i])
  {
    var paths := MemberPaths(sources);
    var ok := CheckApart(paths, host);
    if !ok {
      return None;
    }
    var entries := seq(
      |sources|,
      i requires 0 <= i < |sources| && InstallMemberPath(sources[i].path).Some? => InstallEntry(sources[i]));
    EntriesAreBundle(sources, paths, entries, host);
    r := Some(entries);
  }

  lemma EntriesAreBundle(sources: seq<Entry>, paths: seq<Option<string>>, entries: seq<Entry>, host: Host)
    requires paths == MemberPaths(sources) && |entries| == |sources| && Apart(paths, host)
    requires forall i :: 0 <= i < |sources| && !sources[i].Directory? ==> ArtifactPath(sources[i].path)
    requires forall i :: 0 <= i < |sources| ==>
             InstallMemberPath(sources[i].path).Some? && entries[i] == InstallEntry(sources[i])
    ensures BundleEntries(entries, host)
    ensures forall i :: 0 <= i < |sources| ==>
              paths[i] == Some(entries[i].path) && EntryFact(entries[i]) == EntryFact(sources[i])
  {
    forall i | 0 <= i < |sources|
      ensures paths[i] == Some(entries[i].path) && EntryFact(entries[i]) == EntryFact(sources[i])
      ensures InstallMemberPath(entries[i].path) == Some(entries[i].path)
    {
      InstallEntryIsMember(sources[i]);
    }
  }

  /** A member path is its own member path. */
  lemma MemberPathIsStable(raw: string)
    ensures InstallMemberPath(raw).Some? ==> InstallMemberPath(InstallMemberPath(raw).value) == InstallMemberPath(raw)
  {
    var path := InstallMemberPath(raw);
    if path.Some? {
      PosixEndsInAName(path.value);
      NoNewBadChars(raw, path.value);
    }
  }

  lemma PosixEndsInAName(path: string)
    requires path != "" && path == AsPosix(Parts(path)) && Parts(path) != [] && path[0] != '/'
    ensures path[|path| - 1] != '/'
  {
    PartsAreComponents(path);
    PartsOfJoin(Parts(path));
  }

  lemma NoNewBadChars(raw: string, cut: string)
    requires !HasBadChars(raw) && cut <= raw
    ensures !HasBadChars(cut)
  {
    forall i | 0 <= i < |cut| ensures cut[i] != '\\' && cut[i] >= ' ' {
      assert cut[i] == raw[i];
    }
  }

  /** What is recorded of an entry is still so at its source, and a link leads where it was resolved to. */
  predicate Holds(e: Entry, host: Host) {
    match e
    case Directory(_, _) => true
    case Link(path, linkTarget, rawTarget, _) => Target(path, rawTarget) == Some(linkTarget)
    case Plain(_, _, size, sha, source) => size <= |source| && host.sha(source[..size]) == sha
  }

  lemma WrittenFact(e: Entry, host: Host)
    requires Written(e).Some?
    ensures MemberFact(e.path, Written(e).value, host) == EntryFact(e) <==> Holds(e, host)
    ensures Written(e).value.name == e.path
  {
  }

  predicate DistinctPaths(entries: seq<Entry>) {
    forall i, j :: 0 <= i < j < |entries| ==> entries[i].path != entries[j].path
  }

  lemma {:induction false} ExpectedHolds(entries: seq<Entry>)
    requires DistinctPaths(entries)
    ensures forall i :: 0 <= i < |entries| ==>
              entries[i].path in Expected(entries) && Expected(entries)[entries[i].path] == entries[i]
    ensures forall path | path in Expected(entries) ::
              Expected(entries)[path] in entries && Expected(entries)[path].path == path
  {
    if entries != [] {
      var init, last := entries[..|entries| - 1], entries[|entries| - 1];
      ExpectedHolds(init);
      forall i | 0 <= i < |init|
        ensures entries[i].path in Expected(entries) && Expected(entries)[entries[i].path] == entries[i]
      {
        assert init[i] == entries[i];
      }
      assert entries == init + [last];
    }
  }

  lemma {:induction false} ActualHolds(listed: seq<Listed>, entries: seq<Entry>)
    requires |listed| == |entries|
    requires forall i :: 0 <= i < |entries| ==> ListedAs(listed[i], entries[i])
    ensures Actual(listed).Keys == Expected(entries).Keys
    ensures forall path | path in Actual(listed) :: Written(Expected(entries)[path]) == Some(Actual(listed)[path])
  {
    if entries != [] {
      var last := |entries| - 1;
      assert ListedAs(listed[last], entries[last]);
      forall i | 0 <= i < last ensures ListedAs(listed[..last][i], entries[..last][i]) {
        assert ListedAs(listed[i], entries[i]);
      }
      ActualHolds(listed[..last], entries[..last]);
    }
  }

  predicate ListedAs(m: Listed, e: Entry) {
    m.path == Some(e.path) && Written(e) == Some(m.member)
  }

  lemma {:induction false} WrittenIsReadable(listed: seq<Listed>, entries: seq<Entry>, host: Host)
    requires |listed| == |entries|
    requires forall i :: 0 <= i < |entries| ==> ListedAs(listed[i], entries[i])
    requires forall i, j :: 0 <= i < j < |entries| ==> host.fold(entries[i].path) != host.fold(entries[j].path)
    ensures Readable(listed, host)
    ensures forall folded | folded in Seen(listed, host) :: exists e :: e in entries && folded == host.fold(e.path)
  {
    if entries != [] {
      var last := |entries| - 1;
      var init := entries[..last];
      assert ListedAs(listed[last], entries[last]);
      forall i | 0 <= i < last ensures ListedAs(listed[..last][i], init[i]) {
        assert ListedAs(listed[i], entries[i]);
      }
      WrittenIsReadable(listed[..last], init, host);
      forall e | e in init ensures e in entries && host.fold(e.path) != host.fold(entries[last].path) {
        var i :| 0 <= i < last && entries[i] == e;
      }
      assert entries[last] in entries;
    }
  }

  /** The verifier accepts what the writer wrote exactly when every link leads, lexically, to the file it
      was resolved to, and every file is still what was recorded. */
  lemma WriterVerifies(members: seq<Member>, entries: seq<Entry>, host: Host)
    requires BundleEntries(entries, host) && Archive(members, entries)
    ensures Faithful(List(members), entries, host) <==> forall e | e in entries :: Holds(e, host)
  {
    var listed := List(members);
    forall i | 0 <= i < |entries| ensures ListedAs(listed[i], entries[i]) {
      WrittenFact(entries[i], host);
    }
    WrittenIsReadable(listed, entries, host);
    ActualHolds(listed, entries);
    WrittenAgrees(listed, entries, host);
  }

  lemma WrittenAgrees(listed: seq<Listed>, entries: seq<Entry>, host: Host)
    requires DistinctPaths(entries) && Actual(listed).Keys == Expected(entries).Keys
    requires forall path | path in Actual(listed) :: Written(Expected(entries)[path]) == Some(Actual(listed)[path])
    ensures Facts(Actual(listed), host) == EntryFacts(Expected(entries)) <==> forall e | e in entries :: Holds(e, host)
  {
    var expected := Expected(entries);
    ExpectedHolds(entries);
    var actual := Actual(listed);
    SameFacts(actual, expected, host);
    forall path | path in expected
      ensures MemberFact(path, actual[path], host) == EntryFact(expected[path]) <==> Holds(expected[path], host)
    {
      WrittenFact(expected[path], host);
    }
    forall e | e in entries ensures e.path in expected && expected[e.path] == e {
      var i :| 0 <= i < |entries| && entries[i] == e;
    }
  }
}
