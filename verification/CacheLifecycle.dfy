/** execute_cache_lifecycle: create a private image cache with a short-lived builder, then remove the
    builder, and on failure the cache as well, and report no more than was proved. */
module CacheLifecycle {
  import opened Prelude
  import opened GcpPlans
  import opened GcpProvider

  const CACHED_MANIFESTS: nat := 4

  datatype CacheReport = CacheReport(
    passed: bool,
    retained: bool,
    private_: bool,
    absentAfterFailure: Option<bool>,
    cachedManifests: nat,
    deleteCommandsSucceeded: nat,
    absence: seq<bool>,
    credentialsRetained: bool,
    protectedRunning: bool)

  /** What a run that passes has asked, in order, and been answered. */
  const PREFLIGHT: seq<Question> := [ActiveAccount, Upstreams, ProtectedRunning, ApisEnabled]
  const WARMING: seq<Question> := [RepositoryMatches, BuilderRunning, CacheWarm]
  const VERIFYING: seq<Question> :=
    [PolicyPrivate, CachedDigest, CachedDigest, CachedDigest, CachedDigest, RepositoryMatches, ProtectedRunning]

  /** A reader binding lives in the repository's policy. */
  predicate BindingsUseRepository(c: Cloud, n: CacheNames) {
    var binding := Resource(ReaderBinding, n.account);
    binding in c.present ==> (binding, CACHE_REPOSITORY) in c.uses
  }

  function PlanNames(n: CacheNames): set<Resource> {
    CacheBuilder(n) + {CACHE_REPOSITORY}
  }

  lemma CreateStaysInside(c: Cloud, n: CacheNames, i: nat)
    requires WellFormed(c) && BindingsUseRepository(c, n) && i < |CacheCreates(n)|
    ensures var after := ApplyCreate(c, CacheCreates(n)[i]);
            && WellFormed(after) && BindingsUseRepository(after, n)
            && c.present <= after.present <= c.present + PlanNames(n)
            && after.uses <= c.uses + AllEdges(CacheCreates(n))
            && (i > 0 ==> (CACHE_REPOSITORY in after.present <==> CACHE_REPOSITORY in c.present))
  {
    var cs := CacheCreates(n);
    CacheMakes(n);
    MadeContains(cs, i);
    if Resource(ReaderBinding, n.account) in cs[i].makes {
      assert cs[i] ==
        Create({Resource(ReaderBinding, n.account)}, {CACHE_REPOSITORY, Resource(ServiceAccount, n.account)});
    }
  }

  /** What the creates before the i-th make. */
  ghost function MadeBefore(n: CacheNames, i: nat): set<Resource>
    requires i <= 7
  {
    set r, j | 0 <= j < i && r in CacheCreates(n)[j].makes :: r
  }

  /** Where nothing of the plan was, each create finds what it needs, and nothing of what it makes. */
  lemma NextIsCreated(initial: Cloud, c: Cloud, n: CacheNames, i: nat)
    requires i < 7 && PlanNames(n) !! initial.present
    requires c.present == initial.present + MadeBefore(n, i)
    ensures CanCreate(c, CacheCreates(n)[i])
    ensures ApplyCreate(c, CacheCreates(n)[i]).present == initial.present + MadeBefore(n, i + 1)
  {
    var cs := CacheCreates(n);
    NeedsAreMade(n, i);
    assert MadeBefore(n, i + 1) == MadeBefore(n, i) + cs[i].makes;
    CacheMakes(n);
    MadeContains(cs, i);
  }

  lemma NeedsAreMade(n: CacheNames, i: nat)
    requires i < 7
    ensures CacheCreates(n)[i].needs <= MadeBefore(n, i) && CacheCreates(n)[i].makes !! MadeBefore(n, i)
  {
    var cs, identity := CacheCreates(n), Resource(ServiceAccount, n.account);
    assert cs[0].makes == {CACHE_REPOSITORY} && cs[1].makes == {identity};
    assert cs[3].makes == {Resource(Network, n.network)} && cs[4].makes == {Resource(Subnet, n.subnet)};
    assert forall j, r :: 0 <= j < i && r in cs[j].makes ==> r !in cs[i].makes;
  }

  lemma CleanupKeepsRepository(before: Cloud, after: Cloud, n: CacheNames)
    requires WellFormed(before) && BindingsUseRepository(before, n)
    requires Shrunk(before, after, Removed(CacheCleanup(n)))
    ensures BindingsUseRepository(after, n)
    ensures CACHE_REPOSITORY in before.present <==> CACHE_REPOSITORY in after.present
  {
    CachePlanRecovers(n);
  }

  /** This command was given at that place, if it was given. */
  predicate LoggedAt(given: seq<Command>, at: Option<nat>, command: Command) {
    at.Some? ==> at.value < |given| && given[at.value] == command
  }

  /** How the command at that place went. */
  function OutcomeAt(provider: Provider, at: Option<nat>): Option<Outcome> {
    if at.Some? then Some(provider.At(at.value)) else None
  }

  /** The builder's deletes and listings. */
  function BuilderCleanup(n: CacheNames): (commands: seq<Command>)
    ensures |commands| == 12
  {
    DeletesOf(CacheCleanup(n)) + ListsOf(CacheChecked(n))
  }

  /** The commands of the finally block: the builder's cleanup again unless it was proved absent, after a failure the
      repository's delete and its listing, and the question about the protected instance. */
  function LastCommands(n: CacheNames, begun: bool, proved: bool, passed: bool): seq<Command> {
    Again(n, begun && !proved) + Removal(n, begun && !passed)
  }

  function Again(n: CacheNames, needed: bool): seq<Command> {
    if needed then BuilderCleanup(n) else []
  }

  function Removal(n: CacheNames, needed: bool): seq<Command> {
    RepositoryRemoval(n, needed) + [Asks(ProtectedRunning)]
  }

  /** The place of the repository's delete among them. */
  function RemovalAt(from: nat, proved: bool): nat {
    if proved then from else from + 12
  }

  function RepositoryRemoval(n: CacheNames, needed: bool): seq<Command> {
    if needed then [Deletes(RepositoryDelete(n)), Lists(CACHE_REPOSITORY)] else []
  }

  /** What a run can leave: the provider as it was, and something of the plan. */
  ghost predicate Left(initial: Cloud, c: Cloud, n: CacheNames) {
    && WellFormed(initial) && WellFormed(c) && PlanNames(n) !! initial.present
    && initial.present <= c.present <= initial.present + PlanNames(n)
    && c.uses <= initial.uses + AllEdges(CacheCreates(n))
  }

  /** From there, the whole builder cleanup removes the builder. */
  lemma CleanupRemovesBuilder(initial: Cloud, c: Cloud, n: CacheNames)
    requires Left(initial, c, n)
    ensures CacheBuilder(n) !! RunDeletes(c, CacheCleanup(n)).present
  {
    CachePlanRecovers(n);
    CleanupIsOrdered(initial, c, n);
    OrderedDeletesSucceed(c, CacheCleanup(n), {});
  }

  lemma CleanupIsOrdered(initial: Cloud, c: Cloud, n: CacheNames)
    requires Left(initial, c, n)
    ensures Ordered(CacheCleanup(n), c.uses, {})
  {
    CachePlanRecovers(n);
    OrderedShrinks(CacheCleanup(n), AllEdges(CacheCreates(n)), c.uses, {});
  }

  /** And the deletion of the repository is never refused: only its own binding uses it. */
  lemma RepositoryDeleteIsFree(initial: Cloud, c: Cloud, n: CacheNames)
    requires Left(initial, c, n)
    ensures !Blocked(c, RepositoryDelete(n))
  {
    CacheMakes(n);
    forall e | e in c.uses && e.1 in RepositoryDelete(n) ensures e.0 in RepositoryDelete(n) {
      assert e in AllEdges(CacheCreates(n)) ==> CacheEdge(e, n);
    }
  }

  class CacheRun {
    const provider: Provider
    const names: CacheNames
    ghost const initial: Cloud
    var attempted: bool               // repository_create_attempted_after_absence
    var absentAfterFailure: Option<bool>
    var retained: bool
    var cachedManifests: nat
    var deleted: nat
    var absence: seq<bool>
    var passed: bool
    var protectedRunning: bool
    ghost var createdAt: Option<nat>       // the place of the repository's create command in the log
    ghost var removedAt: Option<nat>       // and of its delete command

    constructor (provider: Provider, names: CacheNames)
      ensures this.provider == provider && this.names == names && initial == provider.cloud
      ensures !attempted && absentAfterFailure == None && !retained && cachedManifests == 0 && deleted == 0
      ensures absence == seq(6, _ => false) && !passed && !protectedRunning && createdAt.None? && removedAt.None?
    {
      this.provider, this.names, this.initial := provider, names, provider.cloud;
      attempted, absentAfterFailure, retained, cachedManifests := false, None, false, 0;
      deleted, absence, passed, protectedRunning := 0, seq(6, _ => false), false, false;
      createdAt, removedAt := None, None;
    }

    ghost predicate Valid()
      reads this`attempted, this`deleted, this`absence, this`createdAt, this`removedAt, provider`cloud, provider`given
    {
      && WellFormed(initial) && WellFormed(provider.cloud) && BindingsUseRepository(provider.cloud, names)
      && |absence| == 6
      && (if attempted then Left(initial, provider.cloud, names) && RepositoryAccount() && Swept()
          else provider.cloud == initial && createdAt.None? && removedAt.None?)
      && LoggedAt(provider.given, createdAt, Creates(CacheCreates(names)[0]))
      && LoggedAt(provider.given, removedAt, Deletes(RepositoryDelete(names)))
    }

    /** The repository is there exactly when its create command took effect and its delete command did not. */
    ghost predicate RepositoryAccount()
      reads this`createdAt, this`removedAt, provider`cloud
    {
      CACHE_REPOSITORY in provider.cloud.present <==>
        Happened(OutcomeAt(provider, createdAt)) && !Happened(OutcomeAt(provider, removedAt))
    }

    /** When every delete of the last cleanup exited zero, nothing is left of the builder. */
    ghost predicate Swept()
      reads this`deleted, provider`cloud
    {
      deleted == |CacheCleanup(names)| ==> CacheBuilder(names) !! provider.cloud.present
    }

    /** The builder is gone: its six checked resources and its reader binding. */
    ghost predicate OnlyRepositoryLeft()
      reads provider`cloud
    {
      provider.cloud.present == initial.present + {CACHE_REPOSITORY}
    }

    /** The next so many commands will work, at least so many answers are left and all are yes. */
    ghost predicate Calm(commands: nat, answers: nat)
      reads provider`given, provider`check
    {
      provider.Smooth(commands) && provider.AllYes(answers)
    }

    /** So many commands were given, and at most so many answers taken. */
    twostate predicate Went(commands: nat, answers: nat)
      reads provider`given, provider`check
    {
      && provider.Step() == old(provider.Step()) + commands
      && old(provider.check) <= provider.check <= old(provider.check) + answers
    }

    /** A question whose answer has to be yes. */
    method Demand(what: Question) returns (raised: Option<Signal>)
      modifies provider`given, provider`check, provider`answered
      ensures provider.given == old(provider.given) + [Asks(what)]
      ensures provider.answered == if raised.None? then old(provider.answered) + [what] else old(provider.answered)
      ensures old(Calm(1, 1)) ==> raised.None? && Went(1, 1)
    {
      var answer := provider.Check(what);
      raised := if answer == Ok(true) then None else Some(if answer.Raise? then answer.error else OwnError);
    }

    /** A listing that has to be empty. */
    method DemandNothing(resource: Resource) returns (raised: Option<Signal>)
      modifies provider`given
      ensures raised.None? ==> resource !in provider.cloud.present
      ensures old(Calm(1, 0)) && resource !in provider.cloud.present ==> raised.None? && Went(1, 0)
    {
      var answer := provider.ListsNothing(resource);
      raised := if answer == Ok(Some(true)) then None else Some(if answer.Raise? then answer.error else OwnError);
    }

    /** The protected instance, seen running; what was seen is remembered. */
    method DemandProtected() returns (raised: Option<Signal>)
      modifies provider`given, provider`check, provider`answered, this`protectedRunning
      ensures provider.given == old(provider.given) + [Asks(ProtectedRunning)]
      ensures raised.None? ==> protectedRunning
      ensures raised.None? ==> provider.answered == old(provider.answered) + [ProtectedRunning]
      ensures old(Calm(1, 1)) ==> raised.None? && Went(1, 1)
    {
      var running := provider.Check(ProtectedRunning);
      if running.Raise? {
        return Some(running.error);
      }
      protectedRunning := running.value;
      raised := if protectedRunning then None else Some(OwnError);
    }

    method CreateStep(i: nat) returns (raised: Option<Signal>)
      requires Valid() && attempted && createdAt.Some? && 0 < i < |CacheCreates(names)| && deleted == 0
      modifies provider`given, provider`cloud
      ensures Valid()
      ensures raised.None? ==> CacheCreates(names)[i].makes <= provider.cloud.present
      ensures old(provider.cloud).present <= provider.cloud.present
      ensures old(Calm(1, 0)) && old(provider.cloud).present == initial.present + MadeBefore(names, i) ==>
                raised.None? && Went(1, 0) && provider.cloud.present == initial.present + MadeBefore(names, i + 1)
    {
      if provider.cloud.present == initial.present + MadeBefore(names, i) {
        NextIsCreated(initial, provider.cloud, names, i);
      }
      CreateStaysInside(provider.cloud, names, i);
      var result := provider.Create(CacheCreates(names)[i]);
      raised := if result == Ok(true) then None else if result.Raise? then Some(result.error) else Some(OwnError);
    }

    /** The first create command, the repository's own. */
    method CreateRepository() returns (raised: Option<Signal>)
      requires Valid() && attempted && createdAt.None? && removedAt.None? && deleted == 0
      modifies provider`given, provider`cloud, this`createdAt
      ensures Valid() && createdAt == Some(old(provider.Step()))
      ensures raised.None? ==> CacheCreates(names)[0].makes <= provider.cloud.present
      ensures old(Calm(1, 0)) && old(provider.cloud).present == initial.present ==>
                raised.None? && Went(1, 0) && provider.cloud.present == initial.present + MadeBefore(names, 1)
    {
      if provider.cloud.present == initial.present {
        NextIsCreated(initial, provider.cloud, names, 0);
      }
      createdAt := Some(provider.Step());
      CreateStaysInside(provider.cloud, names, 0);
      assert CacheCreates(names)[0] == Create({CACHE_REPOSITORY}, {});
      var result := provider.Create(CacheCreates(names)[0]);
      raised := if result == Ok(true) then None else if result.Raise? then Some(result.error) else Some(OwnError);
    }

    /** The six absence checks, which must all come back empty. */
    method BuilderAbsent() returns (raised: Option<Signal>)
      requires Valid() && !attempted
      modifies provider`given, this`absence
      ensures Valid()
      ensures raised.None? ==> Elements(CacheChecked(names)) !! provider.cloud.present
      ensures old(Calm(6, 0)) && PlanNames(names) !! provider.cloud.present ==> raised.None? && Went(6, 0)
    {
      var checked := CacheChecked(names);
      BuilderIsChecked(names);
      for i := 0 to 6
        modifies provider`given, this`absence
        invariant Valid()
        invariant old(Calm(6, 0)) && PlanNames(names) !! provider.cloud.present ==> Went(i, 0)
        invariant forall j :: 0 <= j < i ==> checked[j] !in provider.cloud.present
      {
        raised := DemandNothing(checked[i]);
        if raised.Some? {
          return;
        }
        absence := absence[i := true];
      }
      raised := None;
    }

    /** Authentication, upstreams, the protected instance, the six absence checks, the API services
        and the repository's own absence. */
    method Preflight() returns (raised: Option<Signal>)
      requires Valid() && !attempted && !passed
      modifies provider`given, provider`check, provider`answered, this`absence, this`protectedRunning
      ensures Valid() && provider.cloud == old(provider.cloud)
      ensures raised.None? ==> PlanNames(names) !! initial.present
      ensures raised.None? ==> provider.answered == old(provider.answered) + PREFLIGHT
      ensures old(Calm(13, 4)) && PlanNames(names) !! initial.present ==> raised.None? && Went(13, 4)
    {
      raised := Entry();
      if raised.Some? {
        return;
      }
      raised := BuilderAbsent();
      if raised.Some? {
        return;
      }
      raised := EnableServices();
      if raised.Some? {
        return;
      }
      raised := DemandNothing(CACHE_REPOSITORY);
      BuilderIsChecked(names);
    }

    /** The first three questions. */
    method Entry() returns (raised: Option<Signal>)
      requires Valid() && !attempted
      modifies provider`given, provider`check, provider`answered, this`protectedRunning
      ensures Valid()
      ensures raised.None? ==> provider.answered == old(provider.answered) + PREFLIGHT[..3]
      ensures old(Calm(3, 3)) ==> raised.None? && Went(3, 3)
    {
      raised := Demand(ActiveAccount);
      if raised.None? {
        raised := Demand(Upstreams);
      }
      if raised.None? {
        raised := DemandProtected();
      }
    }

    /** Two commands that may fail, and the question whether the services are there. */
    method EnableServices() returns (raised: Option<Signal>)
      modifies provider`given, provider`check, provider`answered
      ensures raised.None? ==> provider.answered == old(provider.answered) + [ApisEnabled]
      ensures raised.None? ==>
                provider.given == old(provider.given) + [Does(EnableService), Does(EnableService), Asks(ApisEnabled)]
      ensures old(Calm(3, 1)) ==> raised.None? && Went(3, 1)
    {
      for i := 0 to 2
        modifies provider`given
        invariant provider.given == old(provider.given) + seq(i, _ => Does(EnableService))
      {
        var enabling := provider.Give(Does(EnableService));
        if enabling.Raises? && enabling.signal == Interrupt {
          return Some(Interrupt);
        }
      }
      raised := Demand(ApisEnabled);
    }

    /** _repository_exact and _private_policy: true only of a repository that is there, and of a
        policy without bindings. */
    method RepositoryExact() returns (r: Result<bool, Signal>)
      requires Valid()
      modifies provider`given, provider`check, provider`answered
      ensures Valid()
      ensures r == Ok(true) ==>
                CACHE_REPOSITORY in provider.cloud.present
                  && provider.answered == old(provider.answered) + [RepositoryMatches]
      ensures old(Calm(1, 1)) && CACHE_REPOSITORY in provider.cloud.present ==> r == Ok(true) && Went(1, 1)
    {
      var exact := provider.Check(RepositoryMatches);
      if exact.Raise? {
        return exact;
      }
      r := Ok(exact.value && CACHE_REPOSITORY in provider.cloud.present);
    }

    method PrivatePolicy() returns (r: Result<bool, Signal>)
      requires Valid()
      modifies provider`given, provider`check, provider`answered
      ensures Valid()
      ensures r == Ok(true) ==>
                && Resource(ReaderBinding, names.account) !in provider.cloud.present
                && provider.answered == old(provider.answered) + [PolicyPrivate]
      ensures old(Calm(1, 1)) && Resource(ReaderBinding, names.account) !in provider.cloud.present ==>
                r == Ok(true) && Went(1, 1)
    {
      var private_ := provider.Check(PolicyPrivate);
      if private_.Raise? {
        return private_;
      }
      r := Ok(private_.value && Resource(ReaderBinding, names.account) !in provider.cloud.present);
    }

    method Cleanup() returns (interrupted: bool)
      requires Valid() && attempted
      modifies provider`given, provider`cloud, this`deleted, this`absence
      ensures Valid() && old(provider.given) <= provider.given
      ensures Gave(provider, provider.given, old(provider.Step()), BuilderCleanup(names), interrupted)
      ensures provider.cloud.present <= old(provider.cloud).present
      ensures interrupted ==> absence == old(absence)
      ensures !interrupted ==>
                Listed(provider, old(provider.Step()) + 6, CacheChecked(names), provider.cloud.present, absence)
      ensures !interrupted ==> Proved(absence)
      ensures !interrupted && Clear(provider.script, old(provider.Step()), 6) ==> deleted == |CacheCleanup(names)|
      ensures old(Calm(12, 0)) ==>
                !interrupted && Went(12, 0) && AllTrue(absence) && CacheBuilder(names) !! provider.cloud.present
    {
      ghost var start := provider.Step();
      var newDeleted, newAbsence;
      CleanupIsOrdered(initial, provider.cloud, names);
      CleanupRemovesBuilder(initial, provider.cloud, names);
      interrupted, newDeleted, newAbsence := CleanupAndCheck(provider, CacheCleanup(names), CacheChecked(names));
      CachePlanRecovers(names);
      CleanupKeepsRepository(old(provider.cloud), provider.cloud, names);
      if Clear(provider.script, start, 12) {
        GaveAll(provider, start, provider.given, BuilderCleanup(names), interrupted);
      }
      if !interrupted {
        deleted, absence := newDeleted, newAbsence;
      }
      if Clear(provider.script, start, 12) {
        AllListed(start + 6);
      }
    }

    /** With the builder gone, six listings that work find nothing. */
    lemma AllListed(start: nat)
      requires Swept() && deleted == |CacheCleanup(names)| && Clear(provider.script, start, 6)
      requires Listed(provider, start, CacheChecked(names), provider.cloud.present, absence)
      ensures AllTrue(absence) && CacheBuilder(names) !! provider.cloud.present
    {
      BuilderIsChecked(names);
      forall i | 0 <= i < 6 ensures absence[i] {
        assert CacheChecked(names)[i] in Elements(CacheChecked(names));
        assert provider.At(start + i) == Works;
      }
    }

    /** Each true flag stands for a resource that is not there. */
    ghost predicate Proved(flags: seq<bool>)
      reads provider`cloud
    {
      |flags| == 6 && forall i :: 0 <= i < 6 && flags[i] ==> CacheChecked(names)[i] !in provider.cloud.present
    }

    /** The guarded part of the run. */
    method Attempt() returns (raised: Option<Signal>)
      requires Valid() && !attempted && !passed && !retained && absentAfterFailure == None && deleted == 0
      modifies provider, this
      ensures Valid() && absentAfterFailure == None && removedAt.None? && (createdAt.Some? <==> attempted)
      ensures raised.None? <==> passed
      ensures passed == retained
      ensures passed ==> attempted && AllTrue(absence) && protectedRunning && cachedManifests == CACHED_MANIFESTS
      ensures passed ==> OnlyRepositoryLeft()
      ensures passed ==> provider.answered == old(provider.answered) + PREFLIGHT + WARMING + VERIFYING
      ensures attempted && AllTrue(absence) ==> Proved(absence)
      ensures old(Calm(42, 14)) && PlanNames(names) !! initial.present ==> passed && Went(42, 14)
    {
      raised := Preflight();
      if raised.None? {
        raised := Begin();
      }
    }

    /** Everything from the repository's create command on. */
    method Begin() returns (raised: Option<Signal>)
      requires Valid() && !attempted && !passed && !retained && deleted == 0 && PlanNames(names) !! initial.present
      modifies provider, this`attempted, this`createdAt, this`deleted, this`absence, this`cachedManifests
      modifies this`protectedRunning, this`retained, this`passed
      ensures Valid() && attempted && createdAt.Some?
      ensures (raised.None? <==> passed) && passed == retained
      ensures passed ==> AllTrue(absence) && protectedRunning && cachedManifests == CACHED_MANIFESTS
      ensures passed ==> OnlyRepositoryLeft() && provider.answered == old(provider.answered) + WARMING + VERIFYING
      ensures AllTrue(absence) ==> Proved(absence)
      ensures old(Calm(29, 10)) ==> passed && Went(29, 10)
    {
      attempted := true;
      absence := [false, false, false, false, false, false];
      raised := Warm();
      if raised.None? {
        raised := Finish();
      }
    }

    /** The builder's cleanup, and what a pass still needs. */
    method Finish() returns (raised: Option<Signal>)
      requires Valid() && attempted && !passed && !retained && createdAt.Some? && removedAt.None? && !absence[0]
      modifies provider, this`deleted, this`absence, this`cachedManifests, this`protectedRunning
      modifies this`retained, this`passed
      ensures Valid() && (raised.None? <==> passed) && passed == retained
      ensures passed ==> AllTrue(absence) && protectedRunning && cachedManifests == CACHED_MANIFESTS
      ensures passed ==> OnlyRepositoryLeft() && provider.answered == old(provider.answered) + VERIFYING
      ensures AllTrue(absence) ==> Proved(absence)
      ensures old(Calm(19, 7)) && old(CACHE_REPOSITORY in provider.cloud.present) ==> passed && Went(19, 7)
    {
      var interrupted := Cleanup();
      if interrupted {
        return Some(Interrupt);
      }
      if !AllTrue(absence) {
        return Some(OwnError);
      }
      raised := Verify();
      if raised.Some? {
        return;
      }
      retained := true;
      passed := true;
    }

    /** Create the repository, the builder identity and the builder, and wait for the images. */
    method Warm() returns (raised: Option<Signal>)
      requires Valid() && attempted && createdAt.None? && removedAt.None? && deleted == 0
      modifies provider, this`createdAt
      ensures Valid() && createdAt.Some?
      ensures raised.None? ==> provider.answered == old(provider.answered) + WARMING
      ensures raised.None? ==> CACHE_REPOSITORY in provider.cloud.present
      ensures raised.None? ==> forall j :: 0 <= j < 7 ==> CacheCreates(names)[j].makes <= provider.cloud.present
      ensures old(Calm(10, 3)) && old(provider.cloud).present == initial.present ==> raised.None? && Went(10, 3)
    {
      raised := CreateAndMatch();
      if raised.None? {
        raised := CreateOthers();
      }
      if raised.None? {
        raised := Demand(BuilderRunning);
      }
      if raised.None? {
        raised := Demand(CacheWarm);
      }
    }

    /** Create the repository, and look at it. */
    method CreateAndMatch() returns (raised: Option<Signal>)
      requires Valid() && attempted && createdAt.None? && removedAt.None? && deleted == 0
      modifies provider, this`createdAt
      ensures Valid() && createdAt.Some?
      ensures raised.None? ==> provider.answered == old(provider.answered) + [RepositoryMatches]
      ensures raised.None? ==> CacheCreates(names)[0].makes <= provider.cloud.present
      ensures old(Calm(2, 1)) && old(provider.cloud).present == initial.present ==>
                raised.None? && Went(2, 1) && provider.cloud.present == initial.present + MadeBefore(names, 1)
    {
      raised := CreateRepository();
      if raised.Some? {
        return;
      }
      var exact := RepositoryExact();
      raised := if exact == Ok(true) then None else Some(if exact.Raise? then exact.error else OwnError);
    }

    /** Create the builder identity and the builder. */
    method CreateOthers() returns (raised: Option<Signal>)
      requires Valid() && attempted && createdAt.Some? && deleted == 0
      requires CacheCreates(names)[0].makes <= provider.cloud.present
      modifies provider`given, provider`cloud
      ensures Valid() && CACHE_REPOSITORY in provider.cloud.present
      ensures raised.None? ==> forall j :: 0 <= j < 7 ==> CacheCreates(names)[j].makes <= provider.cloud.present
      ensures old(Calm(6, 0)) && old(provider.cloud).present == initial.present + MadeBefore(names, 1) ==>
                raised.None? && Went(6, 0)
    {
      assert CacheCreates(names)[0] == Create({CACHE_REPOSITORY}, {});
      for i := 1 to 7
        modifies provider`given, provider`cloud
        invariant Valid()
        invariant forall j :: 0 <= j < i ==> CacheCreates(names)[j].makes <= provider.cloud.present
        invariant old(Calm(6, 0)) && old(provider.cloud).present == initial.present + MadeBefore(names, 1) ==>
                    Went(i - 1, 0) && provider.cloud.present == initial.present + MadeBefore(names, i)
      {
        raised := CreateStep(i);
        if raised.Some? {
          return;
        }
      }
      raised := None;
    }

    /** Every pinned digest must be in the cache. */
    method CheckDigests() returns (raised: Option<Signal>)
      modifies provider`given, provider`check, provider`answered, this`cachedManifests
      ensures old(provider.given) <= provider.given
      ensures raised.None? ==> cachedManifests == CACHED_MANIFESTS
      ensures raised.None? ==>
                provider.answered == old(provider.answered) + [CachedDigest, CachedDigest, CachedDigest, CachedDigest]
      ensures old(Calm(4, 4)) ==> raised.None? && Went(4, 4)
    {
      var verified := 0;
      while verified < CACHED_MANIFESTS
        invariant verified <= CACHED_MANIFESTS && old(provider.given) <= provider.given
        invariant provider.answered == old(provider.answered) + seq(verified, _ => CachedDigest)
        invariant old(Calm(4, 4)) ==> Went(verified, verified)
      {
        raised := Demand(CachedDigest);
        if raised.Some? {
          return;
        }
        verified := verified + 1;
      }
      cachedManifests := verified;
      raised := None;
    }

    /** With the builder and its binding gone, nothing of the plan is left but the repository. */
    lemma BuilderGone()
      requires Valid() && attempted && AllTrue(absence) && Proved(absence)
      requires Resource(ReaderBinding, names.account) !in provider.cloud.present
      requires CACHE_REPOSITORY in provider.cloud.present
      ensures OnlyRepositoryLeft()
    {
      BuilderIsChecked(names);
    }

    /** The private policy, and the four digests. */
    method PrivateAndComplete() returns (raised: Option<Signal>)
      requires Valid()
      modifies provider`given, provider`check, provider`answered, this`cachedManifests
      ensures Valid()
      ensures raised.None? ==> provider.answered == old(provider.answered) + VERIFYING[..5]
      ensures raised.None? ==>
                cachedManifests == CACHED_MANIFESTS && Resource(ReaderBinding, names.account) !in provider.cloud.present
      ensures old(Calm(5, 5)) && Resource(ReaderBinding, names.account) !in provider.cloud.present ==>
                raised.None? && Went(5, 5)
    {
      var policy := PrivatePolicy();
      if policy != Ok(true) {
        return Some(if policy.Raise? then policy.error else OwnError);
      }
      raised := CheckDigests();
    }

    /** What a pass still needs once the builder is proved absent. */
    method Verify() returns (raised: Option<Signal>)
      requires Valid() && attempted && AllTrue(absence) && Proved(absence)
      modifies provider`given, provider`check, provider`answered, this`cachedManifests, this`protectedRunning
      ensures Valid()
      ensures raised.None? ==> protectedRunning && cachedManifests == CACHED_MANIFESTS && OnlyRepositoryLeft()
      ensures raised.None? ==> provider.answered == old(provider.answered) + VERIFYING
      ensures old(Calm(7, 7)) && CACHE_REPOSITORY in provider.cloud.present
              && Resource(ReaderBinding, names.account) !in provider.cloud.present ==>
                raised.None? && Went(7, 7)
    {
      raised := PrivateAndComplete();
      if raised.Some? {
        return;
      }
      var exact := RepositoryExact();
      if exact != Ok(true) {
        return Some(if exact.Raise? then exact.error else OwnError);
      }
      raised := DemandProtected();
      if raised.None? {
        BuilderGone();
      }
    }

    /** The finally block. */
    method Finally() returns (interrupted: bool)
      requires Valid() && (attempted && AllTrue(absence) ==> Proved(absence))
      requires passed == retained && (passed ==> attempted && AllTrue(absence) && OnlyRepositoryLeft())
      requires absentAfterFailure == None && removedAt.None? && (createdAt.Some? <==> attempted)
      modifies provider, this`deleted, this`absence, this`absentAfterFailure, this`retained, this`protectedRunning
      modifies this`removedAt
      ensures Valid() && old(provider.answered) <= provider.answered && old(provider.given) <= provider.given
      ensures Gave(
                provider, provider.given, old(provider.Step()),
                LastCommands(names, attempted, old(AllTrue(absence)), passed), interrupted)
      ensures passed ==> AllTrue(absence) && OnlyRepositoryLeft() && retained
      ensures !interrupted && attempted ==> Proved(absence)
      ensures !interrupted ==> retained == passed && (removedAt.Some? <==> attempted && !passed)
      ensures !interrupted ==> (absentAfterFailure.Some? <==> attempted && !passed)
      ensures !interrupted && absentAfterFailure == Some(true) ==> CACHE_REPOSITORY !in provider.cloud.present
      ensures removedAt.Some? ==> attempted && !passed
      ensures !interrupted && attempted && !passed ==>
                removedAt == Some(RemovalAt(old(provider.Step()), old(AllTrue(absence))))
      ensures attempted && old(AllTrue(absence)) ==> AllTrue(absence)
      ensures attempted && !interrupted && !old(AllTrue(absence)) && Clear(provider.script, old(provider.Step()), 6) ==>
                deleted == |CacheCleanup(names)|
      ensures !interrupted && protectedRunning ==> JustAnswered(provider.answered, ProtectedRunning)
    {
      ghost var start := provider.Step();
      interrupted := CleanAgain();
      ghost var before := provider.given;
      ghost var some := Again(names, attempted && !old(AllTrue(absence)));
      ghost var more := Removal(names, attempted && !passed);
      if interrupted {
        GaveLess(provider, start, before, some, more);
        return;
      }
      interrupted := RemoveAndLook();
      GaveMore(provider, start, before, some, provider.given, more, interrupted);
    }

    /** The builder's cleanup, unless it was proved absent before. */
    method CleanAgain() returns (interrupted: bool)
      requires Valid() && (attempted && AllTrue(absence) ==> Proved(absence))
      requires passed ==> attempted && AllTrue(absence) && OnlyRepositoryLeft()
      modifies provider`given, provider`cloud, this`deleted, this`absence
      ensures Valid() && old(provider.given) <= provider.given
      ensures Gave(
                provider, provider.given, old(provider.Step()),
                Again(names, attempted && !old(AllTrue(absence))), interrupted)
      ensures !interrupted && attempted ==> provider.Step() == RemovalAt(old(provider.Step()), old(AllTrue(absence)))
      ensures (attempted && old(AllTrue(absence)) ==> AllTrue(absence)) && (passed ==> OnlyRepositoryLeft())
      ensures !interrupted && attempted ==> Proved(absence)
      ensures attempted && !interrupted && !old(AllTrue(absence)) && Clear(provider.script, old(provider.Step()), 6) ==>
                deleted == |CacheCleanup(names)|
    {
      interrupted := false;
      if attempted && !AllTrue(absence) {
        interrupted := Cleanup();
      }
    }

    /** After a failure the repository's delete and listing, and in any case the protected instance. */
    method RemoveAndLook() returns (interrupted: bool)
      requires Valid() && (attempted ==> Proved(absence)) && removedAt.None? && absentAfterFailure == None
      requires passed == retained && (passed ==> attempted && OnlyRepositoryLeft())
      modifies provider, this`absentAfterFailure, this`retained, this`protectedRunning, this`removedAt
      ensures Valid() && old(provider.answered) <= provider.answered && old(provider.given) <= provider.given
      ensures Gave(
                provider, provider.given, old(provider.Step()), Removal(names, attempted && !passed), interrupted)
      ensures attempted ==> Proved(absence)
      ensures passed ==> OnlyRepositoryLeft() && retained
      ensures !interrupted ==> retained == passed && (removedAt.Some? <==> attempted && !passed)
      ensures !interrupted ==> (absentAfterFailure.Some? <==> attempted && !passed)
      ensures !interrupted && absentAfterFailure == Some(true) ==> CACHE_REPOSITORY !in provider.cloud.present
      ensures removedAt.Some? ==> attempted && !passed
      ensures attempted && !passed ==> removedAt == Some(old(provider.Step()))
      ensures !interrupted && protectedRunning ==> JustAnswered(provider.answered, ProtectedRunning)
    {
      ghost var start, some := provider.Step(), RepositoryRemoval(names, attempted && !passed);
      interrupted := RemoveAfterFailure();
      ghost var before := provider.given;
      if interrupted {
        GaveLess(provider, start, before, some, [Asks(ProtectedRunning)]);
        return;
      }
      interrupted := LookAtProtected();
      GaveMore(provider, start, before, some, provider.given, [Asks(ProtectedRunning)], interrupted);
    }

    method LookAtProtected() returns (interrupted: bool)
      requires Valid()
      modifies provider`given, provider`check, provider`answered, this`protectedRunning
      ensures Valid() && old(provider.answered) <= provider.answered && old(provider.given) <= provider.given
      ensures Gave(provider, provider.given, old(provider.Step()), [Asks(ProtectedRunning)], interrupted)
      ensures !interrupted ==> provider.Step() == old(provider.Step()) + 1
      ensures !interrupted ==> protectedRunning == (old(provider.Coming()) == Works && old(provider.Answer()))
      ensures !interrupted && protectedRunning ==> JustAnswered(provider.answered, ProtectedRunning)
    {
      var running;
      interrupted, running := SeesProtected(provider);
      if !interrupted {
        protectedRunning := running;
      }
    }

    method RemoveAfterFailure() returns (interrupted: bool)
      requires Valid() && (attempted ==> Proved(absence)) && removedAt.None? && absentAfterFailure == None
      requires passed == retained && (passed ==> attempted && OnlyRepositoryLeft())
      modifies provider`given, provider`cloud, this`absentAfterFailure, this`retained, this`removedAt
      ensures Valid() && old(provider.given) <= provider.given
      ensures Gave(
                provider, provider.given, old(provider.Step()), RepositoryRemoval(names, attempted && !passed),
                interrupted)
      ensures attempted ==> Proved(absence)
      ensures passed ==> OnlyRepositoryLeft() && retained
      ensures removedAt.Some? <==> attempted && !passed
      ensures !interrupted ==> retained == passed && (absentAfterFailure.Some? <==> attempted && !passed)
      ensures absentAfterFailure == Some(true) ==> CACHE_REPOSITORY !in provider.cloud.present
      ensures attempted && !passed ==> removedAt == Some(old(provider.Step()))
    {
      interrupted := false;
      assert provider.given[provider.Step()..] == [];
      if !passed && attempted {
        interrupted := DeleteRepository();
        if !interrupted {
          retained := false;
        }
      }
    }

    /** The repository's delete command, its failure ignored, and the listing that looks for it. */
    method DeleteRepository() returns (interrupted: bool)
      requires Valid() && attempted && !passed && Proved(absence) && removedAt.None?
      modifies provider`given, provider`cloud, this`absentAfterFailure, this`removedAt
      ensures Valid() && Proved(absence) && old(provider.given) <= provider.given
      ensures Gave(
                provider, provider.given, old(provider.Step()),
                [Deletes(RepositoryDelete(names)), Lists(CACHE_REPOSITORY)], interrupted)
      ensures removedAt == Some(old(provider.Step()))
      ensures Effect(old(provider.Coming())) ==> CACHE_REPOSITORY !in provider.cloud.present
      ensures absentAfterFailure ==
                if interrupted then old(absentAfterFailure)
                else Some(provider.At(old(provider.Step()) + 1) == Works && CACHE_REPOSITORY !in provider.cloud.present)
    {
      ghost var before, delete, list := provider.given, Deletes(RepositoryDelete(names)), Lists(CACHE_REPOSITORY);
      removedAt := Some(provider.Step());
      RepositoryDeleteIsFree(initial, provider.cloud, names);
      var result := provider.Delete(RepositoryDelete(names));
      GaveOne(provider, before, delete);
      assert [delete] + [list] == [delete, list];
      if result == Raise(Interrupt) {
        GaveLess(provider, |before|, provider.given, [delete], [list]);
        return true;
      }
      var answer := provider.ListsNothing(CACHE_REPOSITORY);
      GaveOne(provider, before + [delete], list);
      GaveMore(
        provider, |before|, before + [delete], [delete], provider.given, [list], answer == Raise(Interrupt));
      interrupted := answer == Raise(Interrupt);
      if !interrupted {
        absentAfterFailure := Some(answer == Ok(Some(true)));
      }
    }

    /** When the finally block's commands work after a failure, nothing of the plan is left. */
    lemma WorkingEndRestores(from: nat, proved: bool, interrupted: bool)
      requires Valid() && attempted && !passed
      requires Gave(provider, provider.given, from, LastCommands(names, true, proved, false), interrupted)
      requires Clear(provider.script, from, if proved then 3 else 15)
      requires !interrupted ==> removedAt == Some(RemovalAt(from, proved)) && Proved(absence)
      requires if proved then AllTrue(absence)
               else !interrupted && Clear(provider.script, from, 6) ==> deleted == |CacheCleanup(names)|
      ensures !interrupted && provider.cloud.present == initial.present
    {
      GaveAll(provider, from, provider.given, LastCommands(names, true, proved, false), interrupted);
      assert provider.At(RemovalAt(from, proved)) == Works;
      Restored();
    }

    /** With the builder gone, by its six absences or by its deletes, and the repository too, the provider is as it
        was: a reader binding goes with its repository. */
    lemma Restored()
      requires Valid() && attempted && CACHE_REPOSITORY !in provider.cloud.present
      requires (AllTrue(absence) && Proved(absence)) || deleted == |CacheCleanup(names)|
      ensures provider.cloud.present == initial.present
    {
      BuilderIsChecked(names);
    }
  }

  /** How a run ended: how many commands had been given before its finally block, whether the builder was proved
      absent by then, whether the run had passed, and whether the finally block was interrupted. */
  datatype Ending = Ending(from: nat, proved: bool, passed: bool, interrupted: bool)

  /** execute_cache_lifecycle.  None stands for an exit by interrupt, which writes no report.  `created` and
      `removed` are the places in the provider's log of the repository's create and delete commands, if they were
      given. */
  method ExecuteCacheLifecycle(provider: Provider, names: CacheNames)
    returns (report: Option<CacheReport>, ghost created: Option<nat>, ghost removed: Option<nat>, ghost ending: Ending)
    requires WellFormed(provider.cloud) && BindingsUseRepository(provider.cloud, names)
    modifies provider
    // Frame, on every exit: nothing that was there before is deleted, nothing outside the plan appears.
    ensures old(provider.cloud).present <= provider.cloud.present <= old(provider.cloud).present + PlanNames(names)
    // Nothing is created unless all of the plan was absent.
    ensures if created.Some? then PlanNames(names) !! old(provider.cloud).present
            else provider.cloud == old(provider.cloud)
    // On every exit of a run that began creation the repository is there exactly when it was made and not deleted.
    ensures LoggedAt(provider.given, created, Creates(CacheCreates(names)[0]))
    ensures LoggedAt(provider.given, removed, Deletes(RepositoryDelete(names)))
    ensures created.Some? ==>
              (CACHE_REPOSITORY in provider.cloud.present <==>
                 Happened(OutcomeAt(provider, created)) && !Happened(OutcomeAt(provider, removed)))
    // The log ends with the commands of the finally block, all in order or up to an interrupt of one; among them is
    // the repository's delete exactly on a failure after creation was begun.
    ensures Gave(
              provider, provider.given, ending.from,
              LastCommands(names, created.Some?, ending.proved, ending.passed), ending.interrupted)
    ensures removed.Some? ==> created.Some? && !ending.passed
    ensures !ending.interrupted ==> (removed.Some? <==> created.Some? && !ending.passed)
    ensures report.Some? ==> !ending.interrupted && report.value.passed == ending.passed
    // After a failure, when those commands work, the provider is as it was.
    ensures created.Some? && !ending.passed && Clear(provider.script, ending.from, if ending.proved then 3 else 15) ==>
              provider.cloud.present == old(provider.cloud).present
    // A passed run leaves the repository and nothing else.
    ensures ending.passed ==>
              created.Some? && provider.cloud.present == old(provider.cloud).present + {CACHE_REPOSITORY}
    ensures report.Some? ==> (report.value.retained <==> report.value.passed)
    // Without the repository the provider is as it was, if the report proves the builder absent or all six of
    // its deletes exited zero.
    ensures report.Some? && CACHE_REPOSITORY !in provider.cloud.present
            && (AllTrue(report.value.absence) || report.value.deleteCommandsSucceeded == |CacheCleanup(names)|) ==>
              provider.cloud.present == old(provider.cloud).present
    // The absence it reports is true.
    ensures report.Some? ==> (report.value.absentAfterFailure.Some? <==> removed.Some?)
    ensures report.Some? && report.value.absentAfterFailure == Some(true) ==>
              CACHE_REPOSITORY !in provider.cloud.present
    ensures report.Some? && !report.value.credentialsRetained ==>
              forall r :: r in CacheChecked(names) && r !in old(provider.cloud).present ==> r !in provider.cloud.present
    ensures report.Some? && report.value.protectedRunning ==> JustAnswered(provider.answered, ProtectedRunning)
    // A pass has asked everything, in order.
    ensures ending.passed ==> old(provider.answered) + PREFLIGHT + WARMING + VERIFYING <= provider.answered
    // Where nothing of the plan is, forty-two commands that work and answers that are yes make a pass; with one more,
    // the last look at the protected instance, it is reported.
    ensures PlanNames(names) !! old(provider.cloud).present && old(provider.Smooth(42) && provider.AllYes(14)) ==>
              && ending.passed && ending.from == old(provider.Step()) + 42
              && (Clear(provider.script, ending.from, 1) ==> report.Some?)
  {
    var run := new CacheRun(provider, names);
    var raised := run.Attempt();
    ending := Ending(provider.Step(), AllTrue(run.absence), run.passed, false);
    var interrupted := run.Finally();
    if run.passed && Clear(provider.script, ending.from, 1) {
      GaveAll(provider, ending.from, provider.given, LastCommands(names, true, true, true), interrupted);
    }
    created, removed, ending := run.createdAt, run.removedAt, ending.(interrupted := interrupted);
    if run.attempted && !run.passed && Clear(provider.script, ending.from, if ending.proved then 3 else 15) {
      run.WorkingEndRestores(ending.from, ending.proved, interrupted);
    }
    if raised == Some(Interrupt) || interrupted {
      return None, created, removed, ending;
    }
    if run.attempted && CACHE_REPOSITORY !in provider.cloud.present
        && (AllTrue(run.absence) || run.deleted == |CacheCleanup(names)|) {
      run.Restored();
    }
    report := Some(CacheReport(
      run.passed, run.retained, run.passed && run.retained, run.absentAfterFailure, run.cachedManifests,
      run.deleted, run.absence, run.attempted && !AllTrue(run.absence), run.protectedRunning));
  }
}
