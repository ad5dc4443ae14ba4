/** Lexical symlink targets: the stack-based resolver of the builder, its independent copy at install
    time, and the plain meaning both share. */
module LinkTargets {
  import opened Prelude
  import opened Text

  const APP: string := "CommunityAI"

  predicate HasBadChars(s: string) {
    exists i :: 0 <= i < |s| && (s[i] == '\\' || s[i] < ' ')
  }

  // ----- Paths -----

  function Named(parts: seq<string>): seq<string> {
    if parts == [] then []
    else (if parts[0] == "" || parts[0] == "." then [] else [parts[0]]) + Named(parts[1..])
  }

  /** PurePosixPath(raw).parts of a relative path: empty and dot components vanish. */
  function Parts(raw: string): seq<string> {
    Named(Split(raw, IsSlash))
  }

  /** PurePosixPath(*parts).as_posix(). */
  function AsPosix(parts: seq<string>): string {
    if parts == [] then "." else Join(parts)
  }

  predicate Component(s: string) {
    s != "" && s != "." && Free(s, IsSlash)
  }

  predicate Components(parts: seq<string>) {
    forall i :: 0 <= i < |parts| ==> Component(parts[i])
  }

  /** Printing and reading a path are inverse. */
  lemma {:induction false} PartsOfJoin(parts: seq<string>)
    requires parts != [] && Components(parts)
    ensures Parts(Join(parts)) == parts && Join(parts) != "" && Join(parts)[0] == parts[0][0]
    ensures Join(parts)[|Join(parts)| - 1] != '/'
  {
    assert Component(parts[0]);
    if |parts| == 1 {
      SplitNone(parts[0], IsSlash);
      assert Named([parts[0]]) == [parts[0]] + Named([]);
    } else {
      assert Components(parts[1..]) by {
        forall i | 0 <= i < |parts[1..]| ensures Component(parts[1..][i]) {
          assert Component(parts[i + 1]);
        }
      }
      PartsOfJoin(parts[1..]);
      SplitFirst(parts[0], '/', Join(parts[1..]), IsSlash);
      var rest := Split(Join(parts[1..]), IsSlash);
      assert ([parts[0]] + rest)[1..] == rest;
      assert parts == [parts[0]] + parts[1..];
    }
  }

  lemma {:induction false} NamedAreComponents(pieces: seq<string>)
    requires forall i :: 0 <= i < |pieces| ==> Free(pieces[i], IsSlash)
    ensures Components(Named(pieces))
  {
    if pieces != [] {
      NamedAreComponents(pieces[1..]);
    }
  }

  lemma {:induction false} PiecesAreFree(s: string)
    ensures forall i :: 0 <= i < |Split(s, IsSlash)| ==> Free(Split(s, IsSlash)[i], IsSlash)
    decreases |s|
  {
    var i := Find(s, IsSlash);
    if i < |s| {
      PiecesAreFree(s[i + 1..]);
    }
  }

  lemma PartsAreComponents(raw: string)
    ensures Components(Parts(raw))
  {
    PiecesAreFree(raw);
    NamedAreComponents(Split(raw, IsSlash));
  }

  // ----- The two validators -----

  /** _validate_artifact_path. */
  predicate ArtifactPath(raw: string) {
    && raw != "" && !HasBadChars(raw) && raw[0] != '/'
    && raw == AsPosix(Parts(raw)) && ".." !in Parts(raw)
    && |Parts(raw)| >= 2 && Parts(raw)[0] == APP
  }

  /** _safe_member_path without the root: one trailing slash is allowed, and dropped. */
  function SafeMemberPath(raw: string): Option<string> {
    if raw == "" || HasBadChars(raw) then None
    else
      var normalized := if raw[|raw| - 1] == '/' then raw[..|raw| - 1] else raw;
      if normalized == "" || normalized[0] == '/' || normalized != AsPosix(Parts(normalized)) then None
      else if ".." in Parts(normalized) || |Parts(normalized)| < 2 || Parts(normalized)[0] != APP then None
      else Some(normalized)
  }

  /** The validators agree on everything but a trailing slash. */
  lemma ValidatorsDiffer(raw: string)
    ensures SafeMemberPath(raw) ==
            if ArtifactPath(raw) then Some(raw)
            else if raw != "" && raw[|raw| - 1] == '/' && ArtifactPath(raw[..|raw| - 1]) then Some(raw[..|raw| - 1])
            else None
  {
    if raw != "" && raw[|raw| - 1] == '/' {
      var cut := raw[..|raw| - 1];
      assert HasBadChars(raw) <==> HasBadChars(cut) by {
        if HasBadChars(raw) {
          var i :| 0 <= i < |raw| && (raw[i] == '\\' || raw[i] < ' ');
          assert cut[i] == raw[i];
        }
        if HasBadChars(cut) {
          var i :| 0 <= i < |cut| && (cut[i] == '\\' || cut[i] < ' ');
          assert raw[i] == cut[i];
        }
      }
      if raw == AsPosix(Parts(raw)) && Parts(raw) != [] {
        PartsAreComponents(raw);
        PartsOfJoin(Parts(raw));
      }
    }
  }

  // ----- What a target means -----

  function FirstUp(parts: seq<string>): (i: nat)
    ensures i <= |parts| && (i < |parts| ==> parts[i] == "..")
    ensures forall j :: 0 <= j < i ==> parts[j] != ".."
  {
    if parts == [] || parts[0] == ".." then 0 else 1 + FirstUp(parts[1..])
  }

  /** Lexical normalisation: each ".." cancels the name before it, and one without such a name escapes. */
  function Cancel(parts: seq<string>): Option<seq<string>>
    decreases |parts|
  {
    var i := FirstUp(parts);
    if i == |parts| then Some(parts)
    else if i == 0 then None
    else Cancel(parts[..i - 1] + parts[i + 1..])
  }

  function Parent(parts: seq<string>): seq<string> {
    if parts == [] then [] else parts[..|parts| - 1]
  }

  predicate RawTarget(raw: string) {
    raw != "" && raw[0] != '/' && !HasBadChars(raw)
  }

  /** The path a link at `member` names: inside the application, or nothing. */
  function Target(member: string, raw: string): Option<string> {
    if !RawTarget(raw) then None
    else
      var parts := Cancel(Parent(Parts(member)) + Parts(raw));
      if parts.None? || !ArtifactPath(AsPosix(parts.value)) then None else Some(AsPosix(parts.value))
  }

  lemma CancelOfPlain(parts: seq<string>)
    requires ".." !in parts
    ensures FirstUp(parts) == |parts| && Cancel(parts) == Some(parts)
  {
    assert forall j :: 0 <= j < |parts| ==> parts[j] in parts;
  }

  lemma CancelStep(stack: seq<string>, rest: seq<string>)
    requires ".." !in stack && rest != [] && rest[0] == ".."
    ensures Cancel(stack + rest) == if stack == [] then None else Cancel(Parent(stack) + rest[1..])
  {
    var parts := stack + rest;
    assert forall j :: 0 <= j < |stack| ==> parts[j] == stack[j] && stack[j] in stack;
    assert parts[|stack|] == "..";
    assert FirstUp(parts) == |stack|;
    assert parts[|stack| + 1..] == rest[1..];
    if stack != [] {
      assert parts[..|stack| - 1] == Parent(stack);
    }
  }

  /** How far down a path leads: names less ups. */
  function Depth(parts: seq<string>): int {
    if parts == [] then 0 else Depth(parts[..|parts| - 1]) + (if parts[|parts| - 1] == ".." then -1 else 1)
  }

  lemma {:induction false} DepthConcat(a: seq<string>, b: seq<string>)
    ensures Depth(a + b) == Depth(a) + Depth(b)
  {
    if b == [] {
      assert a + b == a;
    } else {
      assert (a + b)[..|a + b| - 1] == a + b[..|b| - 1];
      DepthConcat(a, b[..|b| - 1]);
    }
  }

  /** After k more parts the path is above where it started. */
  predicate Dips(stack: seq<string>, rest: seq<string>, k: int) {
    0 <= k <= |rest| && Depth(stack + rest[..k]) < 0
  }

  /** A path escapes exactly when some prefix of it leads above where it started. */
  lemma EscapesExactly(parts: seq<string>)
    ensures Cancel(parts).None? <==> exists k :: 0 <= k <= |parts| && Depth(parts[..k]) < 0
  {
    EscapesFrom([], parts);
    assert [] + parts == parts;
    forall k | 0 <= k <= |parts| ensures Dips([], parts, k) <==> Depth(parts[..k]) < 0 {
      assert [] + parts[..k] == parts[..k];
    }
  }

  /** Taking one part onto, or off, the stack shifts where the path dips. */
  lemma DipsShift(stack: seq<string>, rest: seq<string>, next: seq<string>)
    requires ".." !in stack && rest != []
    requires forall k :: 1 <= k <= |rest| ==> Depth(stack + rest[..k]) == Depth(next + rest[1..][..k - 1])
    ensures (exists k :: Dips(stack, rest, k)) <==> (exists k :: Dips(next, rest[1..], k))
  {
    DepthOfPlain(stack);
    assert stack + rest[..0] == stack;
    if exists k :: Dips(stack, rest, k) {
      var k :| Dips(stack, rest, k);
      assert Dips(next, rest[1..], k - 1);
    }
    if exists k :: Dips(next, rest[1..], k) {
      var k :| Dips(next, rest[1..], k);
      assert Depth(stack + rest[..k + 1]) == Depth(next + rest[1..][..k]);
      assert Dips(stack, rest, k + 1);
    }
  }

  lemma {:induction false} EscapesFrom(stack: seq<string>, rest: seq<string>)
    requires ".." !in stack
    ensures Cancel(stack + rest).None? <==> exists k :: Dips(stack, rest, k)
    decreases |rest|
  {
    DepthOfPlain(stack);
    if rest == [] {
      assert stack + rest == stack && forall k :: 0 <= k <= |rest| ==> stack + rest[..k] == stack;
      CancelOfPlain(stack);
    } else if rest[0] == ".." && stack == [] {
      CancelStep(stack, rest);
      assert stack + rest[..1] == [] + [".."];
      assert Depth([".."]) == -1 by {
        assert [".."][..0] == [];
      }
      assert Dips(stack, rest, 1);
    } else if rest[0] == ".." {
      CancelStep(stack, rest);
      assert forall p :: p in Parent(stack) ==> p in stack;
      EscapesFrom(Parent(stack), rest[1..]);
      forall k | 1 <= k <= |rest| ensures Depth(stack + rest[..k]) == Depth(Parent(stack) + rest[1..][..k - 1]) {
        DepthPast(stack, rest, k);
      }
      DipsShift(stack, rest, Parent(stack));
    } else {
      var pushed := stack + [rest[0]];
      assert pushed + rest[1..] == stack + rest;
      EscapesFrom(pushed, rest[1..]);
      forall k | 1 <= k <= |rest| ensures Depth(stack + rest[..k]) == Depth(pushed + rest[1..][..k - 1]) {
        PushShift(stack, rest, k);
      }
      DipsShift(stack, rest, pushed);
    }
  }

  lemma PushShift(stack: seq<string>, rest: seq<string>, k: nat)
    requires rest != [] && 1 <= k <= |rest|
    ensures stack + rest[..k] == (stack + [rest[0]]) + rest[1..][..k - 1]
  {
    assert rest[..k] == [rest[0]] + rest[1..][..k - 1];
    assert stack + ([rest[0]] + rest[1..][..k - 1]) == (stack + [rest[0]]) + rest[1..][..k - 1];
  }

  lemma DepthPast(stack: seq<string>, rest: seq<string>, k: nat)
    requires stack != [] && ".." !in stack && rest != [] && rest[0] == ".." && 1 <= k <= |rest|
    ensures Depth(stack + rest[..k]) == Depth(Parent(stack) + rest[1..][..k - 1])
  {
    assert rest[..k] == [".."] + rest[1..][..k - 1];
    DepthConcat(stack, rest[..k]);
    DepthConcat([".."], rest[1..][..k - 1]);
    DepthConcat(Parent(stack), rest[1..][..k - 1]);
    DepthOfPlain(stack);
    DepthOfPlain(Parent(stack));
    assert Depth([".."]) == -1 by {
      assert [".."][..0] == [];
    }
  }

  lemma {:induction false} DepthOfPlain(parts: seq<string>)
    requires ".." !in parts
    ensures Depth(parts) == |parts|
  {
    if parts != [] {
      var last := |parts| - 1;
      assert parts[last] in parts;
      assert forall p :: p in parts[..last] ==> p in parts;
      DepthOfPlain(parts[..last]);
    }
  }

  // ----- The two resolvers -----

  lemma CancelPush(stack: seq<string>, rest: seq<string>)
    requires rest != []
    ensures Cancel(stack + rest) == Cancel((stack + [rest[0]]) + rest[1..])
  {
    assert stack + rest == (stack + [rest[0]]) + rest[1..];
  }

  /** The loop both resolvers run: push names, pop on "..", refuse to pop nothing. */
  method Resolve(parts: seq<string>) returns (resolved: Option<seq<string>>)
    requires Components(parts)
    ensures resolved == Cancel(parts)
    ensures resolved.Some? ==> Components(resolved.value)
  {
    var stack: seq<string> := [];
    var rest := parts;
    assert stack + parts == parts;
    while rest != []
      invariant Components(stack) && Components(rest) && ".." !in stack
      invariant Cancel(stack + rest) == Cancel(parts)
      decreases |rest|
    {
      var part := rest[0];
      assert Component(part);
      if part == ".." {
        CancelStep(stack, rest);
        if stack == [] {
          return None;
        }
        ComponentsShrink(stack);
        stack := Parent(stack);
      } else {
        CancelPush(stack, rest);
        stack := stack + [part];
      }
      rest := rest[1..];
    }
    assert stack + rest == stack;
    CancelOfPlain(stack);
    resolved := Some(stack);
  }

  lemma ComponentsShrink(stack: seq<string>)
    requires stack != [] && Components(stack) && ".." !in stack
    ensures Components(Parent(stack)) && ".." !in Parent(stack)
  {
    assert forall p :: p in Parent(stack) ==> p in stack;
  }

  lemma JoinedPartsAreComponents(member: string, raw: string)
    ensures Components(Parent(Parts(member)) + Parts(raw))
  {
    PartsAreComponents(member);
    PartsAreComponents(raw);
    var a, b := Parent(Parts(member)), Parts(raw);
    forall i | 0 <= i < |a + b| ensures Component((a + b)[i]) {
      if i < |a| {
        assert Component(Parts(member)[i]);
      } else {
        assert Component(b[i - |a|]);
      }
    }
  }

  /** _canonical_archive_link_target, of the builder. */
  method CanonicalArchiveLinkTarget(member: string, raw: string) returns (target: Option<string>)
    ensures target == Target(member, raw)
  {
    if raw == "" || raw[0] == '/' || HasBadChars(raw) {
      return None;
    }
    JoinedPartsAreComponents(member, raw);
    var parts := Resolve(Parent(Parts(member)) + Parts(raw));
    if parts.None? || !ArtifactPath(AsPosix(parts.value)) {
      return None;
    }
    target := Some(AsPosix(parts.value));
  }

  /** _canonical_link_target, of the installer: its own validator, the same target. */
  method CanonicalLinkTarget(member: string, raw: string) returns (target: Option<string>)
    ensures target == Target(member, raw)
  {
    if raw == "" || raw[0] == '/' || HasBadChars(raw) {
      return None;
    }
    JoinedPartsAreComponents(member, raw);
    var parts := Resolve(Parent(Parts(member)) + Parts(raw));
    if parts.None? {
      return None;
    }
    var path := AsPosix(parts.value);
    ValidatorsDiffer(path);
    if parts.value != [] {
      PartsOfJoin(parts.value);
    }
    target := SafeMemberPath(path);
  }

  /** A target stays inside: it is APP, then at least one more name, and never goes up. */
  lemma TargetStaysInside(member: string, raw: string)
    ensures Target(member, raw).Some? ==>
              var path := Target(member, raw).value;
              && APP + "/" <= path && |path| > |APP| + 1 && Parts(path)[0] == APP && ".." !in Parts(path)
  {
    if Target(member, raw).Some? {
      var path := Target(member, raw).value;
      var parts := Parts(path);
      PartsAreComponents(path);
      assert path == Join(parts) == parts[0] + ['/'] + Join(parts[1..]);
      assert Component(parts[1]);
      assert Components(parts[1..]) by {
        forall i | 0 <= i < |parts[1..]| ensures Component(parts[1..][i]) {
          assert Component(parts[i + 1]);
        }
      }
      PartsOfJoin(parts[1..]);
    }
  }
}
