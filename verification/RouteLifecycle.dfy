/** execute_lifecycle: create a two-route GPU host, carry it through its stages, and clean up.  The
    outside world is a provider with a script of outcomes, a clock that only moves forward, the host's
    health replies, and the places where a registry credential can be. */
module RouteLifecycle {
  import opened Prelude
  import opened GcpPlans
  import opened GcpProvider
  import opened RouteCredential
  import opened RouteMonitor
  import opened RouteSamples
  import opened Secrets

  const LOCAL_VALIDATION: nat := 0
  const NATIVE_AUTHENTICATION: nat := 1
  const PROVIDER_PREFLIGHT: nat := 2
  const CREATE: nat := 3
  const BOOTSTRAP: nat := 4
  const REGISTRY_PREFETCH: nat := 5
  const PRIMARY_INFERENCE: nat := 6
  const STANDBY_INFERENCE: nat := 7
  const AUTO_PRIMARY: nat := 8
  const PRIMARY_DISABLED: nat := 9
  const AUTO_FALLBACK: nat := 10
  const PRIMARY_RESTORED: nat := 11
  const AUTO_RESTORED: nat := 12
  const MONITOR: nat := 13
  const CLEANUP: nat := 14

  const STAGES: nat := 15

  // In microseconds.
  const SECOND: int := 1_000_000
  const MAX_STARTUP: int := 3600 * SECOND
  const MAX_PROVIDER: int := 600 * SECOND

  /** The exceptions the run tells apart.  ActionFailed is the plain "fixed host action failed",
      HostFailed the same with an allowlisted code, LocalLeft the error that a local credential file
      could not be removed; with Lifecycle these are the module's own errors. */
  datatype Failure = ActionFailed | HostFailed | LocalLeft | Lifecycle | Other | Interrupted

  predicate IsLifecycleError(f: Failure) {
    f.ActionFailed? || f.HostFailed? || f.LocalLeft? || f.Lifecycle?
  }

  function FromSignal(s: Signal): Failure {
    match s
    case OwnError => Lifecycle
    case OtherException => Other
    case Interrupt => Interrupted
  }

  /** The stages before the k-th are done, no other is. */
  predicate Reached(stages: seq<bool>, k: nat) {
    |stages| == STAGES && forall i :: 0 <= i < STAGES ==> stages[i] == (i < k)
  }

  /** Apart from cleanup, nothing is done before what comes before it. */
  predicate InOrder(stages: seq<bool>) {
    |stages| == STAGES && stages[LOCAL_VALIDATION]
    && forall i, j :: 0 <= i < j < CLEANUP && stages[j] ==> stages[i]
  }

  /** What each stage stands for: what has been asked of the provider and the host, and answered as it
      should be, to reach it.  Creation is told by the provider's resources, samples by their log. */
  function StageSteps(stage: nat): seq<Question> {
    if stage == NATIVE_AUTHENTICATION then
      [ActiveAccount, PrivateCache, MachineType, Accelerator, RegionalQuota, GlobalQuota, ProtectedRunning]
    else if stage == PROVIDER_PREFLIGHT then [CredentialPrinted]
    else if stage == CREATE then [InstanceRunning]
    else if stage == BOOTSTRAP then [HelpersCopied, HelpersInstalled, HostReady]
    else if stage == REGISTRY_PREFETCH then
      [UploadPrepared, SentinelTransported, UploadRemoved, UploadPrepared, ImagesPrefetched, UploadRemoved]
    else if stage == PRIMARY_INFERENCE then [PrimaryStarted, StandbyStarted, PrimaryAnswers]
    else if stage == STANDBY_INFERENCE then [StandbyAnswers]
    else if stage == AUTO_PRIMARY then [AutoChoosesPrimary]
    else if stage == PRIMARY_DISABLED then [PrimaryStopped]
    else if stage == AUTO_FALLBACK then [AutoChoosesStandby]
    else if stage == PRIMARY_RESTORED then [PrimaryRestored]
    else if stage == AUTO_RESTORED then [AutoChoosesPrimary]
    else []
  }

  /** What has been answered on the way to the k-th stage, after what was there before. */
  function StepsTo(before: seq<Question>, k: nat): seq<Question> {
    if k == 0 then before else StepsTo(before, k - 1) + StageSteps(k - 1)
  }

  lemma {:induction false} StepsGrow(before: seq<Question>, j: nat, k: nat)
    requires j <= k
    ensures StepsTo(before, j) <= StepsTo(before, k)
  {
    if j < k {
      StepsGrow(before, j, k - 1);
    }
  }

  /** Every stage that is marked has had its steps answered, in order. */
  ghost predicate Performed(stages: seq<bool>, before: seq<Question>, answered: seq<Question>)
    requires |stages| == STAGES
  {
    forall i :: 0 <= i < CLEANUP && stages[i] ==> StepsTo(before, i + 1) <= answered
  }

  /** What the marked stages of a run mean, whatever its cleanup flag was then set to. */
  lemma StagesMean(done: seq<bool>, k: nat, cleaned: bool, before: seq<Question>, answered: seq<Question>)
    requires Reached(done, k) && 0 < k && StepsTo(before, k) <= answered
    ensures var stages := done[CLEANUP := cleaned];
            && InOrder(stages) && (AllTrue(stages) <==> k > MONITOR && cleaned)
            && Performed(stages, before, answered)
  {
    var stages := done[CLEANUP := cleaned];
    forall i | 0 <= i < CLEANUP && stages[i] ensures StepsTo(before, i + 1) <= answered {
      StepsGrow(before, i + 1, k);
    }
    if AllTrue(stages) {
      assert stages[MONITOR] && stages[CLEANUP];
    }
  }

  /** The error a call raises. */
  function ErrorOf(outcome: Outcome): Option<Failure> {
    match outcome
    case Works => None
    case ExitsNonzero(_) => Some(ActionFailed)
    case Raises(signal, _) => Some(FromSignal(signal))
  }

  /** _host_action's error: coded or plain. */
  function HostError(outcome: Outcome): (error: Option<Failure>)
    ensures error != Some(LocalLeft)
  {
    if outcome == ExitsNonzero(true) then Some(HostFailed) else ErrorOf(outcome)
  }

  datatype Report = Report(
    passed: bool,
    stages: seq<bool>,
    failureCoded: bool,
    healthSamples: nat,
    maxima: map<Metric, int>,
    deleted: nat,
    absence: seq<bool>,
    credentialsRemoved: bool,
    protectedRunning: bool)

  ghost function PlanResources(n: RouteNames): set<Resource> {
    Elements(RouteChecked(n))
  }

  lemma CreateStaysInside(c: Cloud, n: RouteNames, i: nat)
    requires WellFormed(c) && i < |RouteCreates(n)|
    ensures var after := ApplyCreate(c, RouteCreates(n)[i]);
            && WellFormed(after)
            && c.present <= after.present <= c.present + PlanResources(n)
            && after.uses <= c.uses + AllEdges(RouteCreates(n))
  {
    var cs := RouteCreates(n);
    RouteMakes(n);
    CreatesAddOnlyTheirs(c, cs[i..i + 1]);
    assert cs[i..i + 1] == [cs[i]];
    assert RunCreates(c, [cs[i]]) == ApplyCreate(c, cs[i]) by {
      assert [cs[i]][1..] == [];
      assert RunCreates(ApplyCreate(c, cs[i]), []) == ApplyCreate(c, cs[i]);
    }
    OneMore([], cs[i]);
    assert [cs[i]] + [] == [cs[i]];
    MadeContains(cs, i);
  }

  /** What the creates before the i-th make. */
  ghost function MadeBefore(n: RouteNames, i: nat): set<Resource>
    requires i <= 5
  {
    set r, j | 0 <= j < i && r in RouteCreates(n)[j].makes :: r
  }

  /** Where none of the plan's resources was, each create finds what it needs, and nothing of what it makes. */
  lemma NextIsCreated(initial: Cloud, c: Cloud, n: RouteNames, i: nat)
    requires i < 5 && n.dht != n.iap && PlanResources(n) !! initial.present
    requires c.present == initial.present + MadeBefore(n, i)
    ensures CanCreate(c, RouteCreates(n)[i])
    ensures ApplyCreate(c, RouteCreates(n)[i]).present == initial.present + MadeBefore(n, i + 1)
  {
    var cs := RouteCreates(n);
    assert cs[0].makes == {Resource(Network, n.network)} && cs[1].makes == {Resource(Subnet, n.subnet)};
    assert forall j, r :: 0 <= j < i && r in cs[j].makes ==> r !in cs[i].makes;
    assert MadeBefore(n, i + 1) == MadeBefore(n, i) + cs[i].makes;
    RouteMakes(n);
    MadeContains(cs, i);
  }

  lemma PlanCleanupRestores(initial: Cloud, c: Cloud, n: RouteNames)
    requires WellFormed(initial) && WellFormed(c) && PlanResources(n) !! initial.present
    requires initial.present <= c.present <= initial.present + PlanResources(n)
    requires c.uses <= initial.uses + AllEdges(RouteCreates(n))
    ensures RunDeletes(c, RouteCleanup(n)).present == initial.present
  {
    RoutePlanRecovers(n);
    OrderedShrinks(RouteCleanup(n), AllEdges(RouteCreates(n)), c.uses, {});
    OrderedDeletesSucceed(c, RouteCleanup(n), {});
  }

  /** One cleanup pass over what a run can leave keeps to the plan; all six absent, or every delete
      carried out, is the provider as it was. */
  lemma PassRestores(initial: Cloud, before: Cloud, after: Cloud, n: RouteNames)
    requires WellFormed(initial) && WellFormed(before) && PlanResources(n) !! initial.present
    requires initial.present <= before.present <= initial.present + PlanResources(n)
    requires before.uses <= initial.uses + AllEdges(RouteCreates(n))
    requires Shrunk(before, after, Removed(RouteCleanup(n)))
    ensures initial.present <= after.present <= initial.present + PlanResources(n)
    ensures after.uses <= initial.uses + AllEdges(RouteCreates(n))
    ensures (forall i :: 0 <= i < 6 ==> RouteChecked(n)[i] !in after.present) ==> after.present == initial.present
    ensures after == RunDeletes(before, RouteCleanup(n)) ==> after.present == initial.present
  {
    PlanCleanupRestores(initial, before, n);
    RoutePlanRecovers(n);
  }

  /** The host actions a clean-up begins with. */
  const HOST_CLEANUP: seq<Command> := [Does(CleanupRegistry), Does(StopAllRoutes), Does(CleanupHost)]

  /** What follows them: the five deletes, the six listings, and the question about the protected instance. */
  function ProviderCleanup(n: RouteNames): seq<Command> {
    DeletesOf(RouteCleanup(n)) + ListsOf(RouteChecked(n)) + [Asks(ProtectedRunning)]
  }

  /** The clean-up's two host actions that remove the registry login, of the commands given from this one on. */
  predicate HostCleaned(
    provider: Provider, from: nat, step: nat, logout: Option<Outcome>, hostCleanup: Option<Outcome>)
  {
    && logout == Some(provider.At(from))
    && hostCleanup == (if from + 2 < step then Some(provider.At(from + 2)) else None)
  }

  /** What one cleanup pass, begun with this command and not interrupted, has found: deletes that all work are all
      counted; an absence is claimed exactly when its listing worked and the resource is not there; and with all
      counted, or all absent, the provider is as it was. */
  ghost predicate Found(
    provider: Provider, names: RouteNames, from: nat, deleted: nat, absence: seq<bool>, present: set<Resource>,
    before: set<Resource>)
  {
    && Listed(provider, from + 5, RouteChecked(names), present, absence)
    && (Clear(provider.script, from, 5) ==> deleted == |RouteCleanup(names)|)
    && (deleted == |RouteCleanup(names)| || AllTrue(absence) ==> present == before)
  }

  /** The plan's deletes are in order for whatever a run can leave. */
  lemma CleanupIsOrdered(initial: Cloud, c: Cloud, n: RouteNames)
    requires WellFormed(initial) && WellFormed(c) && PlanResources(n) !! initial.present
    requires c.uses <= initial.uses + AllEdges(RouteCreates(n))
    ensures Ordered(RouteCleanup(n), c.uses, {})
  {
    RoutePlanRecovers(n);
    OrderedShrinks(RouteCleanup(n), AllEdges(RouteCreates(n)), c.uses, {});
  }

  class Run {
    const provider: Provider
    const names: RouteNames
    const samples: SampleLog
    const monitorMicros: nat
    const credential: seq<Byte>         // what the credential command prints
    ghost const initial: Cloud
    ghost const base: seq<Question>                 // what had been answered before the run
    ghost const resources: set<Resource>            // what the plan can make
    ghost const edges: set<(Resource, Resource)>    // and how it can be joined

    // The outside world beyond the provider.
    var clock: int
    var ticks: seq<nat>
    var readings: seq<Reading>          // of the clock, so far
    var localFile: bool                 // a credential file is on the workstation
    var uploadFile: bool                // an uploaded credential file is on the instance
    var dockerConfig: bool              // a registry login is on the instance

    // The variables of execute_lifecycle.
    var stages: seq<bool>
    var created: bool
    var deleted: nat
    var absence: seq<bool>
    var passed: bool
    var protectedRunning: bool
    var payload: array<Byte>
    var remoteRemoved: bool
    var credentialsRemoved: bool

    ghost var buffers: set<array<Byte>>  // every buffer that ever held the credential
    ghost var calls: Calls               // of the last transfer
    ghost var logout: Option<Outcome>    // cleanup-registry, in the clean-up
    ghost var hostCleanup: Option<Outcome>   // cleanup, after it
    ghost var reached: nat               // how many stages are done
    ghost var acked: bool                // the host acknowledged the removal of its registry login

    constructor (
      provider: Provider, names: RouteNames, samples: SampleLog, monitorMicros: nat, credential: seq<Byte>,
      clock: int, ticks: seq<nat>)
      requires samples.Valid() && samples.accepted == []
      ensures this.provider == provider && this.names == names && this.samples == samples
      ensures this.monitorMicros == monitorMicros && this.credential == credential && this.ticks == ticks
      ensures initial == provider.cloud
      ensures base == provider.answered && fresh(payload) && AtStart() && Bound()
    {
      this.provider, this.names, this.samples, this.monitorMicros := provider, names, samples, monitorMicros;
      base := provider.answered;
      resources, edges := PlanResources(names), AllEdges(RouteCreates(names));
      this.credential, initial, this.clock, this.ticks, readings := credential, provider.cloud, clock, ticks, [];
      localFile, uploadFile, dockerConfig := false, false, false;
      stages := seq(STAGES, i => i == LOCAL_VALIDATION);
      created, deleted := false, 0;
      absence, passed, protectedRunning := [false, false, false, false, false, false], false, false;
      payload := new Byte[0];
      remoteRemoved, credentialsRemoved := true, true;
      buffers, calls, logout, hostCleanup := {}, NO_CALLS, None, None;
      acked, reached := false, 1;
    }

    ghost predicate AtStart()
      reads this, provider, samples
    {
      && At(1) && provider.answered == base && !created && !passed && initial == provider.cloud
      && samples.Valid() && samples.accepted == []
      && absence == [false, false, false, false, false, false]
      && !localFile && !uploadFile && !dockerConfig && calls == NO_CALLS && logout.None? && hostCleanup.None?
      && !acked
      && remoteRemoved && credentialsRemoved && buffers == {}
    }

    /** The plan's own resources and edges, to be looked into only where its resources are spoken of. */
    ghost predicate Bound() {
      forall n {:trigger PlanResources(n)} ::
        n == names ==> resources == PlanResources(n) && edges == AllEdges(RouteCreates(n))
    }

    /** The next so many commands will work, at least so many answers are left and all are yes, and the clock
        stands still. */
    ghost predicate Calm(commands: nat, answers: nat)
      reads this`ticks, provider`given, provider`check
    {
      ticks == [] && provider.Smooth(commands) && provider.AllYes(answers)
    }

    /** The next so many commands will work, and the clock stands still. */
    predicate Quiet(commands: nat)
      reads this`ticks, provider`given
    {
      ticks == [] && provider.Smooth(commands)
    }

    /** So many commands were given, and no time has passed. */
    twostate predicate Took(commands: nat)
      reads this`ticks, this`clock, provider`given
    {
      ticks == [] && clock == old(clock) && provider.Step() == old(provider.Step()) + commands
    }

    /** So many commands were given, at most so many answers taken, and no time has passed. */
    twostate predicate Went(commands: nat, answers: nat)
      reads this`ticks, this`clock, provider
    {
      && ticks == [] && clock == old(clock)
      && provider.Step() == old(provider.Step()) + commands
      && old(provider.check) <= provider.check <= old(provider.check) + answers
    }

    // ----- What holds throughout -----

    /** Exactly the first k stages are done, and nothing has been answered beyond them. */
    ghost predicate At(k: nat)
      reads this`stages, this`reached, provider`answered
    {
      reached == k && Reached(stages, k) && provider.answered == StepsTo(base, k)
    }

    /** Exactly the first k stages are done; something more may have been answered. */
    ghost predicate Past(k: nat)
      reads this`stages, this`reached, provider`answered
    {
      reached == k && Reached(stages, k) && StepsTo(base, k) <= provider.answered
    }

    /** One more answer completes the stage. */
    ghost predicate Due(stage: nat, what: Question)
      reads this`stages, this`reached, provider`answered
    {
      reached == stage && Reached(stages, stage) && provider.answered + [what] == StepsTo(base, stage + 1)
    }

    /** The run ended before its cleanup, past the preflight or not. */
    ghost predicate Stopped(entered: bool)
      reads this`stages, this`reached, provider`answered
    {
      1 <= reached <= MONITOR && Past(reached) && (entered <==> reached >= CREATE)
    }

    /** It ended after the registry stage, before its cleanup. */
    ghost predicate StoppedLater()
      reads this`stages, this`reached, provider`answered
    {
      PRIMARY_INFERENCE <= reached <= MONITOR && Past(reached)
    }

    ghost predicate Owned()
      reads this`created, provider`cloud
    {
      && WellFormed(initial) && WellFormed(provider.cloud)
      && (!created ==> provider.cloud == initial)
      && (created ==> resources !! initial.present)
      && initial.present <= provider.cloud.present <= initial.present + resources
      && provider.cloud.uses <= initial.uses + edges
    }

    /** Only the payload can still hold the credential. */
    ghost predicate Contained()
      reads this`payload, this`buffers, buffers
    {
      forall b :: b in buffers ==> b == payload || Zero(b[..])
    }

    /** What is left on the workstation and on the instance is what the calls say. */
    ghost predicate Matched()
      reads this`calls, this`localFile, this`uploadFile, this`dockerConfig
    {
      && localFile == LocalRemains(calls) && uploadFile == UploadRemains(calls)
      && dockerConfig == (Happened(calls.consumed) && calls.login)
    }

    /** What is known of the registry material while no error has left the registry stage. */
    ghost predicate Tidy()
      reads this`calls, this`localFile, this`uploadFile, this`dockerConfig, this`remoteRemoved
    {
      && Matched() && CarriedThrough(calls)
      && !localFile && !uploadFile && !dockerConfig && !LocalErrorOut(calls) && remoteRemoved
    }

    /** What is known of it after an error: the error of the local removal got out exactly when the calls say
        so, and the flag for the instance is down exactly when the run stopped in the registry stage. */
    ghost predicate Accounted(raised: Failure)
      reads this`calls, this`localFile, this`uploadFile, this`dockerConfig, this`remoteRemoved, this`reached
    {
      && Matched() && CarriedThrough(calls)
      && (raised.LocalLeft? <==> LocalErrorOut(calls))
      && (remoteRemoved <==> reached != REGISTRY_PREFETCH)
    }

    /** None of the commands from this one on was interrupted. */
    predicate Unbroken(from: nat)
      reads provider`given
    {
      forall i :: from <= i < provider.Step() ==> !Interrupts(provider.At(i))
    }

    /** Something was wrong with the commands from this one on, with the answers from this one on, or with the samples:
        one did not work, one was not yes, or a reply was not kept. */
    ghost predicate Troubled(from: nat, taken: nat)
      reads provider`given, provider`check, samples
    {
      || (exists i :: from <= i < provider.Step() && provider.At(i) != Works)
      || (exists j :: taken <= j < provider.check && !provider.Yes(j))
      || |samples.places| < |samples.required|
    }

    /** More commands, answers and samples than there were. */
    twostate predicate GoesOn()
      reads provider`given, provider`check, samples, this`clock
    {
      && old(provider.Step()) <= provider.Step() && old(provider.check) <= provider.check && old(clock) <= clock
      && old(|samples.required| - |samples.places|) <= |samples.required| - |samples.places|
    }

    /** The clock came within 149 seconds of this deadline. */
    predicate Late(deadline: int)
      reads this`clock
    {
      clock >= deadline - 149 * SECOND
    }

    // ----- Talking to the outside world -----

    method Clock() returns (t: int)
      modifies this`clock, this`ticks, this`readings
      ensures t == clock >= old(clock)
      ensures old(ticks) == [] ==> t == old(clock) && ticks == []
      ensures readings == old(readings) + [Reading(t, provider.Step())]
      ensures old(ticks) != [] ==> t == old(clock) + old(ticks)[0] && ticks == old(ticks)[1..]
    {
      if ticks != [] {
        clock, ticks := clock + ticks[0], ticks[1..];
      }
      t := clock;
      readings := readings + [Reading(t, provider.Step())];
    }

    /** Sleeping fails only by interrupt. */
    method Sleep(micros: int) returns (raised: Option<Failure>)
      modifies provider`given
      ensures raised == None || raised == Some(Interrupted)
      ensures provider.given == old(provider.given) + [Does(Pause(micros))]
      ensures raised.None? <==> !old(provider.Coming()).Raises?
      ensures provider.Step() == old(provider.Step()) + 1 && (raised.None? ==> provider.Left() < old(provider.Left()))
    {
      var outcome := provider.Give(Does(Pause(micros)));
      raised := if outcome.Raises? then Some(Interrupted) else None;
    }

    /** A command that must exit zero and give the expected answer. */
    method Demand(what: Question) returns (raised: Option<Failure>)
      modifies provider`given, provider`check, provider`answered
      ensures raised != Some(LocalLeft)
      ensures provider.answered == if raised.None? then old(provider.answered) + [what] else old(provider.answered)
      ensures old(Calm(1, 1)) ==> raised.None? && Went(1, 1)
    {
      var r := provider.Check(what);
      raised := if r == Ok(true) then None else if r.Raise? then Some(FromSignal(r.error)) else Some(Lifecycle);
    }

    /** A host action that only has to be acknowledged. */
    method HostAction(what: Question) returns (raised: Option<Failure>)
      modifies provider`given, provider`answered
      ensures provider.given == old(provider.given) + [Asks(what)]
      ensures raised != Some(LocalLeft) && (raised.None? <==> old(provider.Coming()) == Works)
      ensures provider.answered == if raised.None? then old(provider.answered) + [what] else old(provider.answered)
    {
      var outcome := provider.Act(what);
      raised := HostError(outcome);
    }

    /** A host action whose acknowledgement must agree with what the caller expects. */
    method HostAnswer(what: Question) returns (raised: Option<Failure>)
      modifies provider`given, provider`check, provider`answered
      ensures provider.given == old(provider.given) + [Asks(what)] && old(provider.check) <= provider.check
      ensures raised.Some? ==>
                || old(provider.Coming()) != Works
                || (!provider.Yes(old(provider.check)) && old(provider.check) < provider.check)
      ensures raised != Some(Interrupted) ==>
                provider.Left() < old(provider.Left()) && !Interrupts(old(provider.Coming()))
      ensures old(Calm(1, 1)) ==> raised.None? && Went(1, 1)
      ensures raised != Some(LocalLeft)
      ensures provider.answered == if raised.None? then old(provider.answered) + [what] else old(provider.answered)
    {
      var outcome, yes := provider.Inquire(what);
      raised := if outcome.Works? && !yes then Some(Lifecycle) else HostError(outcome);
    }

    /** _remaining_startup_seconds: at least 150 seconds must be left, rounded up. */
    method Remaining(deadline: int) returns (raised: Option<Failure>)
      modifies this`clock, this`ticks, this`readings
      ensures raised == None || raised == Some(Lifecycle)
      ensures clock >= old(clock) && (raised.Some? ==> Late(deadline))
      ensures old(ticks) == [] && deadline - old(clock) > 149 * SECOND ==>
                raised.None? && ticks == [] && clock == old(clock)
    {
      var now := Clock();
      raised := if deadline - now <= 149 * SECOND then Some(Lifecycle) else None;
    }

    // ----- Stages -----

    method Mark(stage: nat)
      requires stage < CLEANUP && reached == stage && Reached(stages, stage)
      requires provider.answered == StepsTo(base, stage + 1)
      modifies this`stages, this`reached
      ensures At(stage + 1)
    {
      stages, reached := stages[stage := true], stage + 1;
    }

    /** Authentication, the private cache, capacity, quotas and the protected instance, then the six
        absence checks. */
    method Preflight() returns (raised: Option<Failure>)
      requires Bound() && Owned() && !created
      modifies provider`given, provider`check, provider`answered
      ensures Owned() && raised != Some(LocalLeft) && old(provider.answered) <= provider.answered
      ensures raised.None? ==> resources !! initial.present
      ensures raised.None? ==> provider.answered == old(provider.answered) + StageSteps(NATIVE_AUTHENTICATION)
      ensures old(Calm(13, 7)) && resources !! initial.present ==> raised.None? && Went(13, 7)
    {
      var questions := StageSteps(NATIVE_AUTHENTICATION);
      for i := 0 to |questions|
        invariant provider.answered == old(provider.answered) + questions[..i]
        invariant old(Calm(13, 7)) ==> Went(i, i)
      {
        raised := Demand(questions[i]);
        if raised.Some? {
          return;
        }
        assert questions[..i + 1] == questions[..i] + [questions[i]];
      }
      assert questions[..|questions|] == questions;
      var checked := RouteChecked(names);
      assert resources == PlanResources(names);
      for i := 0 to 6
        modifies provider`given
        invariant forall j :: 0 <= j < i ==> checked[j] !in provider.cloud.present
        invariant old(Calm(13, 7)) ==> Went(7 + i, 7)
      {
        var answer := provider.ListsNothing(checked[i]);
        if answer != Ok(Some(true)) {
          return Some(if answer.Raise? then FromSignal(answer.error) else Lifecycle);
        }
      }
      raised := None;
    }

    /** The access token, its base64 line in the payload buffer, every other copy wiped. */
    method ReadToken() returns (raised: Option<Failure>)
      requires buffers == {}
      modifies provider`given, provider`check, provider`answered, this`payload, this`buffers
      ensures Contained() && fresh(buffers) && raised != Some(LocalLeft)
      ensures payload == old(payload) || fresh(payload)
      ensures raised.None? ==> payload in buffers && VisibleLine(credential, MAX_TOKEN)
      ensures raised.None? ==> payload[..] == PayloadOf(credential)
      ensures old(provider.answered) <= provider.answered
      ensures raised.None? ==> provider.answered == old(provider.answered) + [CredentialPrinted]
      ensures old(Calm(1, 1)) && VisibleLine(credential, MAX_TOKEN) ==> raised.None? && Went(1, 1)
    {
      raised := Demand(CredentialPrinted);
      if raised.Some? {
        return;
      }
      var encoded, ok;
      ghost var used;
      encoded, ok, used := EncodeCredential(credential);
      buffers := used;
      if !ok {
        return Some(Lifecycle);
      }
      payload := encoded;
    }

    method CreateStep(i: nat) returns (raised: Option<Failure>)
      requires Bound() && Owned() && created && i < 5
      modifies provider`given, provider`cloud
      ensures Owned() && raised != Some(LocalLeft) && old(provider.cloud).present <= provider.cloud.present
      ensures raised.None? ==> RouteCreates(names)[i].makes <= provider.cloud.present
      ensures old(Calm(1, 0)) && names.dht != names.iap
              && old(provider.cloud).present == initial.present + MadeBefore(names, i) ==>
                raised.None? && Went(1, 0) && provider.cloud.present == initial.present + MadeBefore(names, i + 1)
    {
      if names.dht != names.iap && provider.cloud.present == initial.present + MadeBefore(names, i) {
        NextIsCreated(initial, provider.cloud, names, i);
      }
      CreateStaysInside(provider.cloud, names, i);
      var result := provider.Create(RouteCreates(names)[i]);
      raised := if result == Ok(true) then None
                else if result.Raise? then Some(FromSignal(result.error)) else Some(Lifecycle);
    }

    method CreateAll() returns (raised: Option<Failure>)
      requires Bound() && Owned() && !created && resources !! initial.present
      modifies provider`given, provider`cloud, this`created
      ensures Owned() && created && raised != Some(LocalLeft)
      ensures raised.None? ==> forall i :: 0 <= i < 5 ==> RouteCreates(names)[i].makes <= provider.cloud.present
      ensures old(Calm(5, 0)) && names.dht != names.iap ==> raised.None? && Went(5, 0)
    {
      created := true;
      for i := 0 to 5
        modifies provider`given, provider`cloud
        invariant Owned()
        invariant forall j :: 0 <= j < i ==> RouteCreates(names)[j].makes <= provider.cloud.present
        invariant old(Calm(5, 0)) && names.dht != names.iap ==>
                    Went(i, 0) && provider.cloud.present == initial.present + MadeBefore(names, i)
      {
        raised := CreateStep(i);
        if raised.Some? {
          return;
        }
      }
      raised := None;
    }

    /** Every create command, then the instance seen running. */
    method Create() returns (raised: Option<Failure>)
      requires Bound() && Owned() && !created && resources !! initial.present && At(CREATE)
      modifies provider, this`created, this`stages, this`reached, this`clock, this`ticks, this`readings
      ensures Owned() && created && raised != Some(LocalLeft)
      ensures if raised.None? then At(BOOTSTRAP) else Past(CREATE)
      ensures raised.None? ==> forall i :: 0 <= i < 5 ==> RouteCreates(names)[i].makes <= provider.cloud.present
      ensures clock >= old(clock)
      ensures old(Calm(6, 1)) && names.dht != names.iap ==> raised.None? && Went(6, 1)
    {
      raised := CreateAll();
      if raised.None? {
        raised := Await(InstanceRunning);
      }
      if raised.None? {
        Answered(CREATE);
        Mark(CREATE);
      }
    }

    /** A stage's own steps are what takes its answers from those before it to those after it. */
    lemma Answered(stage: nat)
      ensures StepsTo(base, stage + 1) == StepsTo(base, stage) + StageSteps(stage)
    {
    }

    /** Mark a stage whose steps have just been answered. */
    method MarkAll(stage: nat)
      requires stage < CLEANUP && reached == stage && Reached(stages, stage)
      requires provider.answered == StepsTo(base, stage) + StageSteps(stage)
      modifies this`stages, this`reached
      ensures At(stage + 1)
    {
      Answered(stage);
      Mark(stage);
    }

    /** Ask until the answer is as it should be, within ten minutes. */
    method Await(what: Question) returns (raised: Option<Failure>)
      modifies provider`given, provider`check, provider`answered, this`clock, this`ticks, this`readings
      ensures raised != Some(LocalLeft)
      ensures provider.answered == if raised.None? then old(provider.answered) + [what] else old(provider.answered)
      ensures old(Calm(1, 1)) ==> raised.None? && Went(1, 1)
      ensures raised.None? ==> Unbroken(old(provider.Step()))
      ensures raised.None? ==>
                |readings| > |old(readings)| && clock < readings[|old(readings)|].time + MAX_PROVIDER
      ensures clock >= old(clock)
    {
      var start := Clock();
      while true
        invariant provider.answered == old(provider.answered) && Unbroken(old(provider.Step()))
        invariant old(readings) + [Reading(start, old(provider.Step()))] <= readings && clock >= old(clock)
        invariant old(Calm(1, 1)) ==> Went(0, 0) && clock == start
        decreases provider.Left()
      {
        var now := Clock();
        if now >= start + MAX_PROVIDER {
          return Some(Lifecycle);
        }
        var answer := provider.Check(what);
        if answer.Raise? {
          return Some(FromSignal(answer.error));
        }
        if answer.value {
          return None;
        }
        now := Clock();
        if now >= start + MAX_PROVIDER {
          return Some(Lifecycle);
        }
        raised := Sleep(PauseFor(5 * SECOND, start + MAX_PROVIDER - now));
        if raised.Some? {
          return;
        }
      }
    }

    /** Upload the helpers, install them, and wait for the host to be ready. */
    method Bootstrap() returns (raised: Option<Failure>, deadline: int)
      requires At(BOOTSTRAP)
      modifies provider`given, provider`check, provider`answered,
        this`stages, this`reached, this`clock, this`ticks, this`readings
      ensures raised != Some(LocalLeft)
      ensures if raised.None? then At(REGISTRY_PREFETCH) else Past(BOOTSTRAP)
      ensures old(clock) + MAX_STARTUP <= deadline <= clock + MAX_STARTUP
      ensures old(Calm(3, 3)) ==> raised.None? && Went(3, 3) && deadline == clock + MAX_STARTUP
    {
      var start := Clock();
      deadline := start + MAX_STARTUP;
      raised := Await(HelpersCopied);
      if raised.Some? {
        return;
      }
      raised := Demand(HelpersInstalled);
      if raised.Some? {
        return;
      }
      raised := AwaitHost(deadline);
      if raised.None? {
        MarkAll(BOOTSTRAP);
      }
    }

    method AwaitHost(deadline: int) returns (raised: Option<Failure>)
      modifies provider`given, provider`check, provider`answered, this`clock, this`ticks, this`readings
      ensures raised != Some(LocalLeft)
      ensures provider.answered == if raised.None? then old(provider.answered) + [HostReady] else old(provider.answered)
      ensures raised != Some(ActionFailed) && raised != Some(HostFailed)
      ensures old(Calm(1, 1)) && old(clock) < deadline ==> raised.None? && Went(1, 1)
      ensures raised.None? ==> Unbroken(old(provider.Step())) && clock < deadline
      ensures clock >= old(clock)
    {
      while true
        invariant clock >= old(clock)
        invariant provider.answered == old(provider.answered) && Unbroken(old(provider.Step()))
        invariant old(Calm(1, 1)) ==> Went(0, 0)
        decreases provider.Left()
      {
        var now := Clock();
        if now >= deadline {
          return Some(Lifecycle);
        }
        raised := HostAnswer(HostReady);
        if raised.None? || (!raised.value.ActionFailed? && !raised.value.HostFailed?) {
          return;
        }
        now := Clock();
        if now >= deadline {
          return Some(Lifecycle);
        }
        raised := Sleep(PauseFor(15 * SECOND, deadline - now));
        if raised.Some? {
          return;
        }
      }
    }

    // ----- The registry credential -----

    /** _run_secret_upload_bounded: a secret the framing does not allow is refused before any call; otherwise a
        private local file, the copy to the instance, and on every way out the buffer wiped and the local file
        removed or its removal's error raised. */
    method Upload(secret: array<Byte>) returns (raised: Option<Failure>)
      requires calls == NO_CALLS && !localFile
      modifies provider`given, this`localFile, this`uploadFile, this`calls, secret
      ensures Zero(secret[..])
      ensures !UploadAccepts(old(secret[..])) ==>
                raised == Some(Lifecycle) && calls == NO_CALLS && provider.given == old(provider.given)
      ensures calls.consumed.None? && calls.removed.None? && !calls.login
      ensures localFile == LocalRemains(calls)
      ensures uploadFile == (old(uploadFile) || Happened(calls.copied))
      ensures raised == Some(LocalLeft) <==> LocalFailed(calls)
      ensures raised.None? <==> calls.made == calls.copied == calls.erased == Some(Works)
      // The calls go as the world has it; the copy is made only of a file that was written.
      ensures UploadAccepts(old(secret[..])) ==> Written(old(provider.Step()))
      ensures provider.given == old(provider.given) + CommandsOf(calls, UploadPrepared)
    {
      var ok := Secrets.Acceptable(secret);
      if !ok {
        Wipe(secret);
        return Some(Lifecycle);
      }
      raised := WriteAndCopy();
      Wipe(secret);
      var erased := provider.Give(Does(EraseSecret));
      calls, localFile := calls.(erased := Some(erased)), localFile && !Happened(Some(erased));
      if erased.ExitsNonzero? {
        raised := Some(LocalLeft);
      } else if erased.Raises? {
        raised := Some(Interrupted);
      }
    }

    /** The local file, and its copy to the instance. */
    method WriteAndCopy() returns (raised: Option<Failure>)
      requires calls == NO_CALLS && !localFile
      modifies provider`given, this`localFile, this`uploadFile, this`calls
      ensures calls == NO_CALLS.(made := calls.made, copied := calls.copied)
      ensures calls.made == Some(provider.At(old(provider.Step())))
      ensures calls.copied ==
                if calls.made == Some(Works) then Some(provider.At(old(provider.Step()) + 1)) else None
      ensures provider.given == old(provider.given) + CommandsOf(calls, UploadPrepared)
      ensures localFile == Happened(calls.made) && uploadFile == (old(uploadFile) || Happened(calls.copied))
      ensures raised == Some(LocalLeft) <==> calls.made == Some(ExitsNonzero(true))
      ensures raised.None? <==> calls.copied == Some(Works)
    {
      var made := provider.Give(Does(WriteSecret));
      calls, localFile := calls.(made := Some(made)), Happened(Some(made));
      // Where the writer's own clean-up failed, its error is the one that is raised.
      raised := if made == ExitsNonzero(true) then Some(LocalLeft)
                else if made.ExitsNonzero? then Some(Lifecycle) else ErrorOf(made);
      if made.Works? {
        var copied := provider.Give(Does(CopySecret));
        calls, uploadFile := calls.(copied := Some(copied)), uploadFile || Happened(Some(copied));
        raised := if copied.ExitsNonzero? then Some(Lifecycle) else ErrorOf(copied);
      }
    }

    /** The calls so far are those of Upload, from this command on. */
    ghost predicate Written(start: nat)
      reads this`calls, provider`given
    {
      && calls.made == Some(provider.At(start))
      && calls.copied == (if calls.made == Some(Works) then Some(provider.At(start + 1)) else None)
      && calls.erased == Some(provider.At(if calls.made == Some(Works) then start + 2 else start + 1))
      && provider.Step() == start + Count(calls)
    }

    /** The host action that reads the uploaded file: it removes the file before it does anything else, and
        may leave a registry login when it fails after that. */
    method Consume(what: Question) returns (raised: Option<Failure>)
      requires calls.consumed.None? && calls.removed.None? && uploadFile && Happened(calls.copied) && !dockerConfig
      modifies provider`given, provider`check, provider`answered, this`uploadFile, this`dockerConfig, this`calls
      ensures calls == old(calls).(consumed := calls.consumed, login := calls.login)
      ensures calls.consumed == Some(old(provider.Coming())) && provider.given == old(provider.given) + [Asks(what)]
      ensures uploadFile == !Happened(calls.consumed) && dockerConfig == (Happened(calls.consumed) && calls.login)
      ensures raised.None? <==> calls.consumed == Some(Works)
      ensures raised.None? ==> !dockerConfig && provider.answered == old(provider.answered) + [what]
      ensures raised.Some? ==> raised != Some(LocalLeft) && provider.answered == old(provider.answered)
    {
      var outcome := provider.Act(what);
      calls, uploadFile := calls.(consumed := Some(outcome), login := false), uploadFile && !Happened(Some(outcome));
      raised := ErrorOf(outcome);
      if outcome.Works? {
        return;
      }
      var coded := provider.Take();
      if outcome.ExitsNonzero? && coded {
        raised := Some(HostFailed);
      }
      if outcome.effect && what == ImagesPrefetched {
        dockerConfig := provider.Take();
        calls := calls.(login := dockerConfig);
      }
    }

    /** Prepare, upload, consume. */
    method Transfer(secret: array<Byte>, what: Question) returns (raised: Option<Failure>)
      requires calls == NO_CALLS && !localFile && !uploadFile && !dockerConfig
      modifies provider`given, provider`check, provider`answered
      modifies this`localFile, this`uploadFile, this`dockerConfig, this`calls, secret
      ensures Matched() && calls.removed.None?
      ensures raised == Some(LocalLeft) <==> LocalFailed(calls)
      ensures raised.None? ==> !localFile && !uploadFile && !dockerConfig && calls.consumed == Some(Works)
      ensures old(provider.answered) <= provider.answered
      ensures raised.None? ==> provider.answered == old(provider.answered) + [UploadPrepared, what]
      // Once the upload is prepared, the calls are the provider's next commands.
      ensures provider.given == old(provider.given) + [Asks(UploadPrepared)] + CommandsOf(calls, what)
      ensures if old(provider.Coming()) == Works && UploadAccepts(old(secret[..]))
              then FromCommands(calls, provider, old(provider.Step()) + 1) else calls == NO_CALLS
      ensures raised.None? <==> calls.consumed == Some(Works)
    {
      raised := HostAction(UploadPrepared);
      if raised.Some? {
        return;
      }
      raised := Upload(secret);
      if raised.Some? {
        return;
      }
      raised := Consume(what);
    }

    /** _secret_file_remote_action: the transfer, then the buffer wiped and the uploaded file removed; a
        failed removal replaces whatever the transfer raised, an interrupt included. */
    method SecretAction(secret: array<Byte>, what: Question) returns (raised: Option<Failure>)
      requires Tidy()
      modifies provider`given, provider`check, provider`answered, this`localFile, this`uploadFile, this`dockerConfig
      modifies this`calls, this`remoteRemoved, secret
      ensures Zero(secret[..])
      ensures raised.None? ==> Tidy() && UploadAccepts(old(secret[..]))
      ensures raised.Some? ==> Matched() && CarriedThrough(calls) && !remoteRemoved
      ensures raised.Some? ==> (raised.value.LocalLeft? <==> LocalErrorOut(calls))
      // In the log: the preparation, the calls that were made, and the removal, whatever became of the others.
      ensures provider.given == old(provider.given) + [Asks(UploadPrepared)] + CommandsOf(calls, what)
      ensures calls.removed == Some(provider.At(provider.Step() - 1))
      ensures old(provider.Coming()) != Works || !UploadAccepts(old(secret[..])) ==>
                raised.Some? && calls == NO_CALLS.(removed := calls.removed)
      ensures old(provider.answered) <= provider.answered
      ensures raised.None? ==> provider.answered == old(provider.answered) + [UploadPrepared, what, UploadRemoved]
      ensures old(provider.Coming()) == Works && UploadAccepts(old(secret[..])) ==> Sent(old(provider.Step()), raised)
    {
      remoteRemoved, calls := false, NO_CALLS;
      var removed;
      raised, removed := TransferAndRemove(secret, what);
      if !removed {
        raised := Some(Lifecycle);
      }
      if raised.None? {
        remoteRemoved := true;
      }
    }

    /** The transfer, the buffer wiped, and the removal, each failing or not. */
    method TransferAndRemove(secret: array<Byte>, what: Question) returns (raised: Option<Failure>, removed: bool)
      requires calls == NO_CALLS && !localFile && !uploadFile && !dockerConfig
      modifies provider`given, provider`check, provider`answered
      modifies this`localFile, this`uploadFile, this`dockerConfig, this`calls, secret
      ensures Zero(secret[..]) && Matched() && CarriedThrough(calls)
      ensures raised == Some(LocalLeft) <==> LocalFailed(calls)
      ensures raised.None? <==> calls.consumed == Some(Works)
      ensures raised.None? ==> !localFile && !uploadFile && !dockerConfig && UploadAccepts(old(secret[..]))
      ensures provider.given == old(provider.given) + [Asks(UploadPrepared)] + CommandsOf(calls, what)
      ensures calls.removed == Some(provider.At(provider.Step() - 1)) && (removed <==> calls.removed == Some(Works))
      ensures if old(provider.Coming()) == Works && UploadAccepts(old(secret[..]))
              then FromCommands(calls, provider, old(provider.Step()) + 1)
              else calls == NO_CALLS.(removed := calls.removed)
      ensures old(provider.answered) <= provider.answered
      ensures raised.None? && removed ==>
                provider.answered == old(provider.answered) + [UploadPrepared, what, UploadRemoved]
    {
      ghost var start := provider.Step();
      raised := Transfer(secret, what);
      Wipe(secret);
      ghost var transfer := calls;
      removed := RemoveUpload();
      RemovalIsLast(transfer, what, calls.removed.value);
      if FromCommands(transfer, provider, start + 1) {
        OneMoreCall(transfer, provider, start + 1, calls.removed.value);
      }
    }

    /** cleanup-registry-upload. */
    method RemoveUpload() returns (ok: bool)
      requires Matched() && calls.removed.None?
      modifies provider`given, provider`answered, this`calls, this`uploadFile
      ensures Matched() && calls == old(calls).(removed := Some(old(provider.Coming())))
      ensures provider.given == old(provider.given) + [Asks(UploadRemoved)]
      ensures ok <==> old(provider.Coming()) == Works
      ensures provider.answered == if ok then old(provider.answered) + [UploadRemoved] else old(provider.answered)
    {
      var removed := provider.Act(UploadRemoved);
      calls, uploadFile := calls.(removed := Some(removed)), uploadFile && !Happened(Some(removed));
      ok := removed.Works?;
    }

    /** Begun with this command, prepared, the transfer's calls were the provider's next ones; it failed unless
        they all worked. */
    ghost predicate Sent(start: nat, raised: Option<Failure>)
      reads this`calls, provider`given
    {
      && FromCommands(calls, provider, start + 1) && calls.removed.Some?
      && provider.Step() == start + 1 + Count(calls) && (raised.None? <==> Delivered(calls))
    }

    /** One transfer, if there is time for it. */
    method Send(deadline: int, secret: array<Byte>, what: Question) returns (raised: Option<Failure>)
      requires Tidy()
      modifies provider`given, provider`check, provider`answered, this`localFile, this`uploadFile, this`dockerConfig
      modifies this`calls, this`remoteRemoved, this`clock, this`ticks, this`readings, secret
      ensures raised.None? ==> Tidy() && Zero(secret[..]) && UploadAccepts(old(secret[..]))
      ensures raised.Some? ==> Matched() && CarriedThrough(calls) && !remoteRemoved
      ensures raised.Some? ==> (raised.value.LocalLeft? <==> LocalErrorOut(calls))
      ensures old(provider.answered) <= provider.answered
      ensures raised.None? ==> provider.answered == old(provider.answered) + [UploadPrepared, what, UploadRemoved]
      ensures clock >= old(clock)
      ensures old(Quiet(1)) && deadline == old(clock) + MAX_STARTUP && UploadAccepts(old(secret[..])) ==>
                Sent(old(provider.Step()), raised) && ticks == [] && clock == old(clock)
    {
      raised := Remaining(deadline);
      if raised.Some? {
        remoteRemoved := false;
        return;
      }
      raised := SecretAction(secret, what);
    }

    /** The sentinel, which the host decodes and compares. */
    method SendSentinel(deadline: int) returns (raised: Option<Failure>)
      requires Tidy()
      modifies provider`given, provider`check, provider`answered, this`localFile, this`uploadFile, this`dockerConfig
      modifies this`calls, this`remoteRemoved, this`clock, this`ticks, this`readings
      ensures raised.None? ==> Tidy()
      ensures raised.Some? ==> Matched() && CarriedThrough(calls) && !remoteRemoved
      ensures raised.Some? ==> (raised.value.LocalLeft? <==> LocalErrorOut(calls))
      ensures old(provider.answered) <= provider.answered
      ensures raised.None? ==>
                provider.answered == old(provider.answered) + [UploadPrepared, SentinelTransported, UploadRemoved]
      ensures clock >= old(clock)
      ensures old(Quiet(6)) && deadline == old(clock) + MAX_STARTUP ==> raised.None? && Took(6)
    {
      var sentinel := NewSecret(SENTINEL);
      raised := Send(deadline, sentinel, SentinelTransported);
    }

    /** The sentinel first, then the credential itself, which gets through only if its token is short enough. */
    method Prefetch(deadline: int) returns (raised: Option<Failure>)
      requires Owned() && At(REGISTRY_PREFETCH) && Tidy() && Contained() && payload in buffers
      requires VisibleLine(credential, MAX_TOKEN) && payload[..] == PayloadOf(credential)
      modifies provider`given, provider`check, provider`answered, this`localFile, this`uploadFile, this`dockerConfig
      modifies this`calls, this`remoteRemoved, this`stages, this`reached, this`clock, this`ticks, this`readings, payload
      ensures Owned() && Contained()
      ensures if raised.None? then At(PRIMARY_INFERENCE) else Past(REGISTRY_PREFETCH)
      ensures raised.None? ==> Tidy() && Zero(payload[..]) && Uploadable()
      ensures raised.Some? ==> Accounted(raised.value)
      ensures clock >= old(clock)
      ensures old(Quiet(7)) && deadline == old(clock) + MAX_STARTUP && Uploadable() ==>
                Sent(old(provider.Step()) + 6, raised)
    {
      raised := SendSentinel(deadline);
      if raised.Some? {
        return;
      }
      raised := SendCredential(deadline);
      if raised.None? {
        MarkAll(REGISTRY_PREFETCH);
      }
    }

    /** The credential itself. */
    method SendCredential(deadline: int) returns (raised: Option<Failure>)
      requires Tidy() && VisibleLine(credential, MAX_TOKEN) && payload[..] == PayloadOf(credential)
      modifies provider`given, provider`check, provider`answered, this`localFile, this`uploadFile, this`dockerConfig
      modifies this`calls, this`remoteRemoved, this`clock, this`ticks, this`readings, payload
      ensures raised.None? ==> Tidy() && Zero(payload[..]) && Uploadable()
      ensures raised.Some? ==> Matched() && CarriedThrough(calls) && !remoteRemoved
      ensures raised.Some? ==> (raised.value.LocalLeft? <==> LocalErrorOut(calls))
      ensures old(provider.answered) <= provider.answered
      ensures raised.None? ==>
                provider.answered == old(provider.answered) + [UploadPrepared, ImagesPrefetched, UploadRemoved]
      ensures clock >= old(clock)
      ensures old(Quiet(1)) && deadline == old(clock) + MAX_STARTUP && Uploadable() ==>
                Sent(old(provider.Step()), raised)
    {
      UploadableExactly(credential[..|credential| - 1], Base64(credential[..|credential| - 1]));
      raised := Send(deadline, payload, ImagesPrefetched);
    }

    /** The uploader takes the encoded token. */
    predicate Uploadable() {
      |credential| <= MAX_UPLOADABLE + 1
    }

    // ----- Samples -----

    method TakeSample(requirePrimary: bool) returns (raised: Option<Failure>)
      requires samples.Valid()
      modifies provider`given
      modifies samples
      ensures samples.Valid() && old(samples.accepted) <= samples.accepted
      ensures provider.given == old(provider.given) + [Does(HealthLook)]
      ensures raised.None? ==> old(provider.Coming()) == Works
      ensures GoesOn() && (raised.Some? ==> Troubled(old(provider.Step()), old(provider.check)))
      ensures raised.None? ==> |samples.accepted| == |old(samples.accepted)| + 1
      ensures raised.None? && requirePrimary ==> samples.accepted[|samples.accepted| - 1].snapshot.primary.Some?
      ensures raised.Some? ==> samples.accepted == old(samples.accepted) && samples.places == old(samples.places)
      ensures raised.None? ==> samples.places == old(samples.places) + [|old(samples.required)|]
      ensures raised.None? ==> |samples.required| == |old(samples.required)| + 1
      ensures raised != Some(Interrupted) ==>
                provider.Left() < old(provider.Left()) && !Interrupts(old(provider.Coming()))
      ensures raised != Some(LocalLeft)
    {
      var outcome := provider.Give(Does(HealthLook));
      raised := HostError(outcome);
      if raised.Some? {
        return;
      }
      var ok := samples.Take(requirePrimary);
      if !ok {
        raised := Some(Lifecycle);
      }
    }

    /** One sample with the primary, if there is time for it. */
    method SampleInTime(deadline: int) returns (raised: Option<Failure>)
      requires samples.Valid()
      modifies provider`given, this`clock, this`ticks, this`readings
      modifies samples
      ensures samples.Valid() && raised != Some(LocalLeft) && provider.Left() <= old(provider.Left())
      ensures |samples.accepted| == |old(samples.accepted)| + (if raised.None? then 1 else 0)
      ensures old(samples.accepted) <= samples.accepted
      ensures raised.None? ==> samples.accepted[|samples.accepted| - 1].snapshot.primary.Some?
      ensures raised != Some(Interrupted) ==> Unbroken(old(provider.Step()))
      ensures GoesOn()
      ensures raised.Some? ==> Troubled(old(provider.Step()), old(provider.check)) || Late(deadline)
    {
      raised := Remaining(deadline);
      if raised.None? {
        raised := TakeSample(true);
      }
    }

    /** The retry loops: the module's own errors are swallowed until the deadline. */
    method AwaitSample(deadline: int) returns (raised: Option<Failure>)
      requires samples.Valid()
      modifies provider`given, this`clock, this`ticks, this`readings
      modifies samples
      ensures samples.Valid() && old(samples.accepted) <= samples.accepted && raised != Some(LocalLeft)
      ensures |samples.accepted| == |old(samples.accepted)| + (if raised.None? then 1 else 0)
      ensures raised.None? ==> samples.accepted[|samples.accepted| - 1].snapshot.primary.Some?
      ensures raised.Some? && IsLifecycleError(raised.value) ==> clock >= deadline
      ensures raised.None? ==> Unbroken(old(provider.Step()))
      ensures GoesOn()
      ensures raised.Some? ==> Troubled(old(provider.Step()), old(provider.check)) || Late(deadline)
    {
      while true
        invariant Unbroken(old(provider.Step())) && GoesOn()
        invariant samples.Valid() && samples.accepted == old(samples.accepted)
        decreases provider.Left()
      {
        raised := SampleInTime(deadline);
        if raised.None? || !IsLifecycleError(raised.value) {
          return;
        }
        var now := Clock();
        if now >= deadline {
          return;
        }
        now := Clock();
        var interrupted := Sleep(PauseFor(5 * SECOND, deadline - now));
        if interrupted.Some? {
          return interrupted;
        }
      }
    }

    // ----- The middle of the run -----

    /** A host action whose acknowledgement must agree, completing a stage. */
    method Probe(stage: nat, what: Question) returns (raised: Option<Failure>)
      requires stage < CLEANUP && Due(stage, what) && StepsTo(base, stage) <= provider.answered
      modifies provider`given, provider`check, provider`answered, this`stages, this`reached
      ensures raised != Some(LocalLeft) && provider.given == old(provider.given) + [Asks(what)]
      ensures GoesOn() && (raised.Some? ==> Troubled(old(provider.Step()), old(provider.check)))
      ensures if raised.None? then At(stage + 1) else Past(stage)
    {
      raised := HostAnswer(what);
      if raised.None? {
        Mark(stage);
      }
    }

    method StartRoutes(deadline: int) returns (raised: Option<Failure>)
      requires At(PRIMARY_INFERENCE) && samples.Valid()
      modifies provider`given, provider`check, provider`answered, this`clock, this`ticks, this`readings
      modifies samples
      ensures samples.Valid() && raised != Some(LocalLeft) && Past(PRIMARY_INFERENCE)
      ensures raised.None? ==>
                |samples.accepted| == |old(samples.accepted)| + 1 && Due(PRIMARY_INFERENCE, PrimaryAnswers)
      ensures raised.None? ==> samples.accepted[|samples.accepted| - 1].snapshot.primary.Some?
      ensures GoesOn()
      ensures raised.Some? ==> Troubled(old(provider.Step()), old(provider.check)) || Late(deadline)
    {
      raised := StartBoth(deadline);
      if raised.None? {
        raised := AwaitSample(deadline);
      }
    }

    /** Both routes' containers, the primary's first. */
    method StartBoth(deadline: int) returns (raised: Option<Failure>)
      requires At(PRIMARY_INFERENCE)
      modifies provider`given, provider`answered, this`clock, this`ticks, this`readings
      ensures raised != Some(LocalLeft) && Past(PRIMARY_INFERENCE)
      ensures raised.None? ==> Due(PRIMARY_INFERENCE, PrimaryAnswers)
      ensures raised.None? ==> provider.given == old(provider.given) + [Asks(PrimaryStarted), Asks(StandbyStarted)]
      ensures GoesOn()
      ensures raised.Some? ==> Troubled(old(provider.Step()), old(provider.check)) || Late(deadline)
    {
      raised := Remaining(deadline);
      if raised.None? {
        raised := HostAction(PrimaryStarted);
      }
      if raised.None? {
        raised := Remaining(deadline);
      }
      if raised.None? {
        raised := HostAction(StandbyStarted);
      }
      if raised.None? {
        Answered(PRIMARY_INFERENCE);
        assert provider.answered + [PrimaryAnswers] ==
          StepsTo(base, PRIMARY_INFERENCE) + StageSteps(PRIMARY_INFERENCE);
      }
    }

    method Infer() returns (raised: Option<Failure>)
      requires Past(PRIMARY_INFERENCE) && Due(PRIMARY_INFERENCE, PrimaryAnswers)
      modifies provider`given, provider`check, provider`answered, this`stages, this`reached
      ensures raised != Some(LocalLeft)
      ensures if raised.None? then At(PRIMARY_DISABLED) else StoppedLater()
      ensures GoesOn() && (raised.Some? ==> Troubled(old(provider.Step()), old(provider.check)))
    {
      raised := Probe(PRIMARY_INFERENCE, PrimaryAnswers);
      if raised.None? {
        Answered(STANDBY_INFERENCE);
        raised := Probe(STANDBY_INFERENCE, StandbyAnswers);
      }
      if raised.None? {
        Answered(AUTO_PRIMARY);
        raised := Probe(AUTO_PRIMARY, AutoChoosesPrimary);
      }
    }

    method FallBack() returns (raised: Option<Failure>)
      requires At(PRIMARY_DISABLED) && samples.Valid()
      modifies provider`given, provider`check, provider`answered, this`stages, this`reached
      modifies samples
      ensures samples.Valid() && raised != Some(LocalLeft)
      ensures if raised.None? then At(PRIMARY_RESTORED) else StoppedLater()
      ensures GoesOn() && (raised.Some? ==> Troubled(old(provider.Step()), old(provider.check)))
      ensures raised.None? ==>
                |samples.accepted| == |old(samples.accepted)| + 1 && old(samples.accepted) <= samples.accepted
      ensures raised.None? ==>
                provider.given == old(provider.given) +
                  [Asks(PrimaryStopped), Does(Pause(35_000_000)), Does(HealthLook), Asks(AutoChoosesStandby)]
    {
      raised := Disable();
      if raised.None? {
        raised := TakeSample(false);
      }
      if raised.None? {
        Answered(AUTO_FALLBACK);
        raised := Probe(AUTO_FALLBACK, AutoChoosesStandby);
      }
    }

    /** The primary stopped, and time for the network to notice. */
    method Disable() returns (raised: Option<Failure>)
      requires At(PRIMARY_DISABLED)
      modifies provider`given, provider`answered, this`stages, this`reached
      ensures raised != Some(LocalLeft)
      ensures if raised.None? then At(AUTO_FALLBACK) else StoppedLater()
      ensures GoesOn() && (raised.Some? ==> Troubled(old(provider.Step()), old(provider.check)))
      ensures raised.None? ==>
                && provider.given == old(provider.given) + [Asks(PrimaryStopped), Does(Pause(35_000_000))]
                && Unbroken(old(provider.Step()))
    {
      Answered(PRIMARY_DISABLED);
      raised := HostAction(PrimaryStopped);
      if raised.Some? {
        return;
      }
      Mark(PRIMARY_DISABLED);
      raised := Sleep(35 * SECOND);
    }

    method Restore() returns (raised: Option<Failure>)
      requires At(PRIMARY_RESTORED) && samples.Valid()
      modifies provider`given, provider`check, provider`answered,
        this`stages, this`reached, this`clock, this`ticks, this`readings
      modifies samples
      ensures samples.Valid() && raised != Some(LocalLeft)
      ensures if raised.None? then At(MONITOR) else StoppedLater()
      ensures GoesOn()
      ensures raised.Some? ==>
                Troubled(old(provider.Step()), old(provider.check)) || Late(old(clock) + MAX_STARTUP)
      ensures raised.None? ==>
                |samples.accepted| == |old(samples.accepted)| + 1 && old(samples.accepted) <= samples.accepted
      ensures raised.None? ==>
                && samples.accepted[|samples.accepted| - 1].snapshot.primary.Some?
                && provider.given != [] && provider.given[|provider.given| - 1] == Asks(AutoChoosesPrimary)
    {
      Answered(PRIMARY_RESTORED);
      raised := HostAction(PrimaryRestored);
      if raised.Some? {
        return;
      }
      var now := Clock();
      raised := AwaitSample(now + MAX_STARTUP);
      if raised.Some? {
        return;
      }
      Mark(PRIMARY_RESTORED);
      Answered(AUTO_RESTORED);
      raised := Probe(AUTO_RESTORED, AutoChoosesPrimary);
    }

    /** The monitoring stage. */
    method Monitor() returns (raised: Option<Failure>)
      requires At(MONITOR) && samples.Valid() && !passed && ThreeSamples()
      requires provider.given != [] && provider.given[|provider.given| - 1] == Asks(AutoChoosesPrimary)
      modifies provider`given, provider`check, this`stages, this`reached, this`clock, this`ticks, this`readings
      modifies samples, this`passed
      ensures samples.Valid() && raised != Some(LocalLeft)
      ensures if raised.None? then At(CLEANUP) else StoppedLater()
      ensures passed <==> raised.None?
      ensures raised.None? ==> HasWatched(provider.Step())
      ensures GoesOn() && (raised.Some? ==> Troubled(old(provider.Step()), old(provider.check)))
    {
      raised := Watch();
      if raised.None? {
        Answered(MONITOR);
        Mark(MONITOR);
        passed := true;
      }
    }

    /** The loop of the monitoring. */
    method Watch() returns (raised: Option<Failure>)
      requires samples.Valid() && ThreeSamples()
      requires provider.given != [] && provider.given[|provider.given| - 1] == Asks(AutoChoosesPrimary)
      modifies provider`given, this`clock, this`ticks, this`readings, samples
      ensures samples.Valid() && raised != Some(LocalLeft)
      ensures raised.None? ==> HasWatched(provider.Step())
      ensures GoesOn() && (raised.Some? ==> Troubled(old(provider.Step()), old(provider.check)))
    {
      ghost var m, given := |readings|, provider.given;
      var now := Clock();
      var deadline := now + monitorMicros;
      now := Clock();
      ghost var k := 0;
      while now < deadline
        invariant samples.Valid() && Kept(k) && GoesOn()
        invariant Begun(m, given, deadline) && given <= provider.given
        invariant Monitoring(provider, readings, provider.given, provider.Step(), m, k, monitorMicros)
                    && readings[|readings| - 1].time == now
        decreases provider.Left()
      {
        raised, now := LookAgain(deadline, now, m, k);
        if raised.Some? {
          return;
        }
        k := k + 1;
      }
      raised := None;
      IsWatched(m, k, given, deadline);
    }

    /** The monitoring began with this reading, after these commands, and is to go on until this deadline. */
    ghost predicate Begun(m: nat, given: seq<Command>, deadline: int)
      reads this`readings
    {
      && m < |readings| && readings[m].step == |given| && readings[m].time + monitorMicros == deadline
    }

    lemma IsWatched(m: nat, k: nat, given: seq<Command>, deadline: int)
      requires Begun(m, given, deadline) && given <= provider.given && Kept(k)
      requires given != [] && given[|given| - 1] == Asks(AutoChoosesPrimary)
      requires Monitoring(provider, readings, provider.given, provider.Step(), m, k, monitorMicros)
      requires readings[|readings| - 1].time >= deadline
      ensures HasWatched(provider.Step())
    {
      assert Watched(
          provider, readings, m, provider.given, provider.Step(), samples.accepted, samples.places, |samples.required|,
          monitorMicros);
    }

    /** One pass: sleep, look, and read the clock again. */
    method LookAgain(deadline: int, last: int, ghost m: nat, ghost k: nat)
      returns (raised: Option<Failure>, now: int)
      requires samples.Valid() && Kept(k) && last < deadline
      requires Monitoring(provider, readings, provider.given, provider.Step(), m, k, monitorMicros)
               && readings[|readings| - 1].time == last
      requires readings[m].time + monitorMicros == deadline
      modifies provider`given, this`clock, this`ticks, this`readings, samples
      ensures samples.Valid() && old(provider.given) <= provider.given && old(readings) <= readings
      ensures raised != Some(LocalLeft) && (raised.None? ==> provider.Left() < old(provider.Left()))
      ensures GoesOn() && (raised.Some? ==> Troubled(old(provider.Step()), old(provider.check)))
      ensures raised.None? ==>
                && Kept(k + 1)
                && Monitoring(provider, readings, provider.given, provider.Step(), m, k + 1, monitorMicros)
                && readings[|readings| - 1].time == now
    {
      ghost var before, commands := readings, provider.given;
      now := last;
      var left := Clock();
      raised := Sleep(PauseFor(HEALTH_PERIOD, deadline - left));
      if raised.Some? {
        return;
      }
      raised := TakeSample(true);
      if raised.Some? {
        return;
      }
      now := Clock();
      OneMorePass(provider, before, commands, m, k, monitorMicros, left, now, readings, provider.given);
    }

    /** Three samples have been taken, and all but the second name the primary. */
    ghost predicate ThreeSamples()
      reads samples
    {
      && |samples.accepted| == 3
      && samples.accepted[0].snapshot.primary.Some? && samples.accepted[2].snapshot.primary.Some?
    }

    /** So many more have been taken since, each asked for once, and each naming the primary. */
    ghost predicate Kept(k: nat)
      reads samples
    {
      && |samples.accepted| == |samples.places| == 3 + k
      && (forall i :: 0 <= i < 3 + k && i != 1 ==> samples.accepted[i].snapshot.primary.Some?)
      && (forall i :: 3 <= i < 3 + k ==> samples.places[i] == |samples.required| - 3 - k + i)
    }

    /** The run was monitored as it should be, by the first so many of its commands. */
    ghost predicate HasWatched(n: nat)
      reads this`readings, provider`given, samples
    {
      exists m: nat ::
        Watched(provider, readings, m, provider.given, n, samples.accepted,
          samples.places, |samples.required|, monitorMicros)
    }

    /** Everything after the registry stage. */
    method Operate(deadline: int) returns (raised: Option<Failure>)
      requires At(PRIMARY_INFERENCE) && samples.Valid() && samples.accepted == [] && !passed
      requires deadline <= clock + MAX_STARTUP
      modifies provider`given, provider`check, provider`answered,
        this`stages, this`reached, this`clock, this`ticks, this`readings
      modifies samples, this`passed
      ensures samples.Valid() && raised != Some(LocalLeft)
      ensures if raised.None? then At(CLEANUP) && |samples.accepted| >= 3 else StoppedLater()
      ensures passed <==> raised.None?
      ensures passed ==> HasWatched(provider.Step())
      ensures clock >= old(clock) && (raised.Some? ==> Troubled(0, 0) || Late(deadline))
    {
      raised := Exercise(deadline);
      if raised.None? {
        raised := Monitor();
      }
    }

    /** Up to the monitoring: both routes serve, and each takes over from the other. */
    method Exercise(deadline: int) returns (raised: Option<Failure>)
      requires At(PRIMARY_INFERENCE) && samples.Valid() && samples.accepted == []
      requires deadline <= clock + MAX_STARTUP
      modifies provider`given, provider`check, provider`answered,
        this`stages, this`reached, this`clock, this`ticks, this`readings
      modifies samples
      ensures samples.Valid() && raised != Some(LocalLeft)
      ensures if raised.None? then At(MONITOR) && ThreeSamples() else StoppedLater()
      ensures raised.None? ==>
                provider.given != [] && provider.given[|provider.given| - 1] == Asks(AutoChoosesPrimary)
      ensures clock >= old(clock) && (raised.Some? ==> Troubled(0, 0) || Late(deadline))
    {
      raised := StartRoutes(deadline);
      if raised.None? {
        raised := Infer();
      }
      if raised.None? {
        raised := FallBack();
      }
      if raised.None? {
        raised := Restore();
      }
    }

    /** native_authentication and provider_preflight are marked together, once the token is read. */
    method MarkEntry()
      requires reached == 1 && Reached(stages, 1)
      requires provider.answered == StepsTo(base, 1) + StageSteps(1) + StageSteps(2)
      modifies this`stages, this`reached
      ensures At(CREATE)
    {
      Answered(1);
      Answered(2);
      stages, reached := stages[NATIVE_AUTHENTICATION := true][PROVIDER_PREFLIGHT := true], CREATE;
    }

    /** The try block, up to the first create command. */
    method Enter() returns (raised: Option<Failure>)
      requires Bound() && Owned() && At(1) && !created && !passed && buffers == {} && Tidy() && calls == NO_CALLS
      modifies provider`given, provider`check, provider`answered, this`payload, this`buffers, this`stages
      modifies this`reached, this`protectedRunning
      ensures Owned() && Contained() && fresh(buffers)
      ensures payload == old(payload) || fresh(payload)
      ensures raised.Some? ==> Ended(raised)
      ensures raised.None? ==> At(CREATE) && resources !! initial.present && payload in buffers
      ensures raised.None? ==> VisibleLine(credential, MAX_TOKEN) && payload[..] == PayloadOf(credential)
      ensures old(Calm(30, 12)) && Ready() ==>
                raised.None? && Calm(16, 4) && provider.Step() == old(provider.Step()) + 14
    {
      raised := Preflight();
      if raised.Some? {
        return;
      }
      raised := ReadToken();
      if raised.Some? {
        return;
      }
      MarkEntry();
      protectedRunning := true;
    }

    /** The try block, from the first create command to the last image. */
    method Establish() returns (raised: Option<Failure>, deadline: int)
      requires Bound() && Owned() && Contained() && payload in buffers && Tidy() && !created
      requires At(CREATE) && resources !! initial.present
      requires VisibleLine(credential, MAX_TOKEN) && payload[..] == PayloadOf(credential)
      modifies provider, this`created, this`clock, this`ticks, this`readings, this`stages, this`reached, payload
      modifies this`localFile, this`uploadFile, this`dockerConfig, this`calls, this`remoteRemoved
      ensures Owned() && Contained() && created
      ensures raised.None? ==> At(PRIMARY_INFERENCE) && Tidy() && Uploadable()
      ensures raised.Some? ==> Stopped(true) && Accounted(raised.value) && !stages[REGISTRY_PREFETCH]
      ensures raised.None? ==> old(clock) + MAX_STARTUP <= deadline <= clock + MAX_STARTUP
      ensures old(Calm(16, 4)) && names.dht != names.iap && Uploadable() ==>
                && Sent(old(provider.Step()) + 15, raised)
                && Resource(Instance, names.instance) in provider.cloud.present
    {
      raised, deadline := Boot();
      if raised.None? {
        raised := Prefetch(deadline);
      }
    }

    /** The instance created and ready. */
    method Boot() returns (raised: Option<Failure>, deadline: int)
      requires Bound() && Owned() && !created && At(CREATE) && resources !! initial.present
      modifies provider, this`created, this`clock, this`ticks, this`readings, this`stages, this`reached
      ensures Owned() && created && raised != Some(LocalLeft)
      ensures if raised.None? then At(REGISTRY_PREFETCH) else CREATE <= reached <= BOOTSTRAP && Past(reached)
      ensures raised.None? ==> Resource(Instance, names.instance) in provider.cloud.present
      ensures raised.None? ==> old(clock) + MAX_STARTUP <= deadline <= clock + MAX_STARTUP
      ensures old(Calm(9, 4)) && names.dht != names.iap ==>
                raised.None? && Went(9, 4) && deadline == clock + MAX_STARTUP
    {
      deadline := 0;
      raised := Create();
      if raised.None? {
        assert Resource(Instance, names.instance) in RouteCreates(names)[4].makes;
        raised, deadline := Bootstrap();
      }
    }

    /** How the try block ends: at its end, with three samples or more and the credential's files gone; or with an
        error before, and what is left of the credential told by the calls. */
    ghost predicate Ended(raised: Option<Failure>)
      reads this`calls, this`localFile, this`uploadFile, this`dockerConfig, this`remoteRemoved, this`reached,
            this`created, this`stages, this`passed, provider`answered, samples
    {
      match raised
      case None =>
        && At(CLEANUP) && created && passed && Tidy() && |samples.accepted| >= 3
        && VisibleLine(credential, MAX_TOKEN) && Uploadable()
      case Some(error) =>
        && Stopped(created) && !passed && Accounted(error) && (!created ==> calls == NO_CALLS)
        && (stages[REGISTRY_PREFETCH] ==> VisibleLine(credential, MAX_TOKEN) && Uploadable())
    }

    /** The try block, from the first create command to its end. */
    method Proceed() returns (raised: Option<Failure>)
      requires Bound() && Owned() && Contained() && payload in buffers && Tidy() && !created && !passed
      requires At(CREATE) && resources !! initial.present && samples.Valid() && samples.accepted == []
      requires VisibleLine(credential, MAX_TOKEN) && payload[..] == PayloadOf(credential)
      modifies provider, samples, this`created, this`clock,
        this`ticks, this`readings, this`stages, this`reached, payload
      modifies this`localFile, this`uploadFile, this`dockerConfig, this`calls, this`remoteRemoved, this`passed
      ensures Owned() && Contained() && samples.Valid() && Ended(raised)
      ensures passed ==> HasWatched(provider.Step())
      ensures raised.Some? && stages[REGISTRY_PREFETCH] ==> Troubled(0, 0) || Late(old(clock) + MAX_STARTUP)
      ensures old(Calm(16, 4)) && names.dht != names.iap && Uploadable() ==> Carried(old(provider.Step()) + 16, raised)
    {
      var deadline;
      raised, deadline := Establish();
      if raised.Some? {
        EndsEarlier(raised);
      } else {
        raised := Conduct(deadline);
      }
    }

    /** The try block after the registry stage. */
    method Conduct(deadline: int) returns (raised: Option<Failure>)
      requires Owned() && created && Tidy() && VisibleLine(credential, MAX_TOKEN) && Uploadable()
      requires At(PRIMARY_INFERENCE) && samples.Valid() && samples.accepted == [] && !passed
      requires deadline <= clock + MAX_STARTUP
      modifies provider`given, provider`check, provider`answered, samples
      modifies this`stages, this`reached, this`clock, this`ticks, this`readings, this`passed
      ensures Owned() && samples.Valid() && Ended(raised)
      ensures passed ==> HasWatched(provider.Step())
      ensures raised.Some? ==> Troubled(0, 0) || Late(deadline)
    {
      raised := Operate(deadline);
      EndsLater(raised);
    }

    lemma EndsEarlier(raised: Option<Failure>)
      requires raised.Some? && created && !passed && Stopped(true)
               && Accounted(raised.value) && !stages[REGISTRY_PREFETCH]
      ensures Ended(raised)
    {
    }

    /** After the registry stage nothing of the credential is left, whatever happens. */
    lemma EndsLater(raised: Option<Failure>)
      requires created && Tidy() && VisibleLine(credential, MAX_TOKEN) && Uploadable() && (passed <==> raised.None?)
      requires if raised.None? then At(CLEANUP) && |samples.accepted| >= 3
               else StoppedLater() && raised != Some(LocalLeft)
      ensures Ended(raised)
    {
    }

    /** The transfer's calls were the provider's commands from this one on; if they did not all work, the try
        block ended there, with the instance in place. */
    ghost predicate Carried(start: nat, raised: Option<Failure>)
      reads this`created, this`calls, provider`given, provider`cloud
    {
      && created && FromCommands(calls, provider, start) && calls.removed.Some?
      && (!Delivered(calls) ==>
            && raised.Some? && provider.Step() == start + Count(calls)
            && Resource(Instance, names.instance) in provider.cloud.present)
    }

    /** What a run needs, besides a provider that does as it is told, to come to its credential. */
    ghost predicate Ready()
    {
      names.dht != names.iap && VisibleLine(credential, MAX_TOKEN) && Uploadable() && resources !! initial.present
    }

    /** The try block, as its finally finds it. */
    method Attempt() returns (raised: Option<Failure>)
      requires Bound() && Owned() && At(1) && !created && !passed && buffers == {} && Tidy() && calls == NO_CALLS
      requires samples.Valid() && samples.accepted == []
      modifies provider, samples, this`clock, this`ticks, this`readings,
        this`stages, this`reached, this`created, this`passed
      modifies this`protectedRunning, this`payload, this`buffers, payload
      modifies this`localFile, this`uploadFile, this`dockerConfig, this`calls, this`remoteRemoved
      ensures Owned() && samples.Valid() && Contained() && Ended(raised)
      ensures passed ==> HasWatched(provider.Step())
      ensures raised.Some? && stages[REGISTRY_PREFETCH] ==> Troubled(0, 0) || Late(old(clock) + MAX_STARTUP)
      ensures payload == old(payload) || fresh(payload)
      ensures old(Calm(30, 12)) && Ready() ==> Carried(old(provider.Step()) + 30, raised)
    {
      raised := Enter();
      if raised.None? {
        raised := Proceed();
      }
    }

    // ----- The finally block -----

    /** The three host actions, each one's Exception ignored.  Both cleanup-registry and cleanup remove the
        registry login; only the acknowledgement of the first is taken note of. */
    method CleanHost() returns (interrupted: bool)
      requires logout.None? && hostCleanup.None?
      modifies provider`given, provider`check
      modifies this`dockerConfig, this`remoteRemoved, this`acked, this`logout, this`hostCleanup
      ensures old(provider.given) <= provider.given && old(provider.check) <= provider.check
      ensures Gave(provider, provider.given, old(provider.Step()), HOST_CLEANUP, interrupted)
      ensures HostCleaned(provider, old(provider.Step()), provider.Step(), logout, hostCleanup)
      ensures dockerConfig == (old(dockerConfig) && !Happened(logout) && !Happened(hostCleanup))
      ensures remoteRemoved == (old(remoteRemoved) || acked)
      ensures acked <==> logout == Some(Works) && old(provider.Answer())
    {
      acked := false;
      ghost var start := provider.Step();
      interrupted := LogOut();
      ghost var before := provider.given;
      if interrupted {
        GaveLess(provider, start, before, HOST_CLEANUP[..1], HOST_CLEANUP[1..]);
        assert HOST_CLEANUP[..1] + HOST_CLEANUP[1..] == HOST_CLEANUP;
        return;
      }
      interrupted := StopAndCleanHost();
      GaveMore(provider, start, before, HOST_CLEANUP[..1], provider.given, HOST_CLEANUP[1..], interrupted);
      assert HOST_CLEANUP[..1] + HOST_CLEANUP[1..] == HOST_CLEANUP;
    }

    /** cleanup-registry. */
    method LogOut() returns (interrupted: bool)
      requires logout.None? && !acked
      modifies provider`given, provider`check
      modifies this`dockerConfig, this`remoteRemoved, this`acked, this`logout
      ensures old(provider.given) <= provider.given && old(provider.check) <= provider.check
      ensures Gave(provider, provider.given, old(provider.Step()), HOST_CLEANUP[..1], interrupted)
      ensures logout == Some(old(provider.Coming())) && provider.Step() == old(provider.Step()) + 1
      ensures dockerConfig == (old(dockerConfig) && !Happened(logout))
      ensures remoteRemoved == (old(remoteRemoved) || acked)
      ensures acked <==> logout == Some(Works) && old(provider.Answer())
    {
      ghost var before := provider.given;
      var outcome := provider.Give(Does(CleanupRegistry));
      GaveOne(provider, before, Does(CleanupRegistry));
      assert HOST_CLEANUP[..1] == [Does(CleanupRegistry)];
      logout, dockerConfig := Some(outcome), dockerConfig && !Happened(Some(outcome));
      interrupted := ErrorOf(outcome) == Some(Interrupted);
      if outcome.Works? {
        var known := provider.Take();
        remoteRemoved, acked := remoteRemoved || known, known;
      }
    }

    /** stop-all and cleanup. */
    method StopAndCleanHost() returns (interrupted: bool)
      requires hostCleanup.None?
      modifies provider`given, this`dockerConfig, this`hostCleanup
      ensures old(provider.given) <= provider.given
      ensures Gave(provider, provider.given, old(provider.Step()), HOST_CLEANUP[1..], interrupted)
      ensures hostCleanup == if provider.Step() == old(provider.Step()) + 2 then Some(provider.At(provider.Step() - 1))
                             else None
      ensures dockerConfig == (old(dockerConfig) && !Happened(hostCleanup))
    {
      assert HOST_CLEANUP[1..] == [Does(StopAllRoutes), Does(CleanupHost)];
      ghost var before := provider.given;
      var outcome := provider.Give(Does(StopAllRoutes));
      GaveOne(provider, before, Does(StopAllRoutes));
      if ErrorOf(outcome) == Some(Interrupted) {
        return true;
      }
      outcome := provider.Give(Does(CleanupHost));
      hostCleanup, dockerConfig := Some(outcome), dockerConfig && !Happened(Some(outcome));
      interrupted := ErrorOf(outcome) == Some(Interrupted);
      GaveOne(provider, before + [Does(StopAllRoutes)], Does(CleanupHost));
      GaveMore(
        provider, |before|, before + [Does(StopAllRoutes)], [Does(StopAllRoutes)], provider.given,
        [Does(CleanupHost)], interrupted);
    }

    /** _cleanup_provider and the last look at the protected instance. */
    method CleanProvider() returns (interrupted: bool)
      requires Bound() && Owned() && created && |absence| == 6
      modifies provider, this`remoteRemoved, this`deleted, this`absence, this`protectedRunning
      ensures Owned() && |absence| == 6
      ensures old(provider.answered) <= provider.answered && old(provider.given) <= provider.given
      ensures old(provider.check) <= provider.check
      ensures Gave(provider, provider.given, old(provider.Step()), ProviderCleanup(names), interrupted)
      ensures !interrupted ==> FoundOut(old(provider.Step()))
      ensures !interrupted && protectedRunning ==> JustAnswered(provider.answered, ProtectedRunning)
      ensures !interrupted ==> (remoteRemoved <==> old(remoteRemoved) || AllTrue(absence))
    {
      ghost var start, pass := provider.Step(), DeletesOf(RouteCleanup(names)) + ListsOf(RouteChecked(names));
      interrupted := DeleteAndList();
      ghost var before := provider.given;
      if interrupted {
        GaveLess(provider, start, before, pass, [Asks(ProtectedRunning)]);
        return;
      }
      if AllTrue(absence) {
        remoteRemoved := true;
      }
      var running;
      interrupted, running := SeesProtected(provider);
      if !interrupted {
        protectedRunning := running;
      }
      GaveMore(provider, start, before, pass, provider.given, [Asks(ProtectedRunning)], interrupted);
    }

    /** What the pass, begun with this command, has found. */
    ghost predicate FoundOut(from: nat)
      reads this`deleted, this`absence, provider`cloud
    {
      Found(provider, names, from, deleted, absence, provider.cloud.present, initial.present)
    }

    /** _cleanup_provider. */
    method DeleteAndList() returns (interrupted: bool)
      requires Bound() && Owned() && created && |absence| == 6
      modifies provider`given, provider`cloud, this`deleted, this`absence
      ensures Owned() && |absence| == 6 && old(provider.given) <= provider.given
      ensures Gave(
                provider, provider.given, old(provider.Step()),
                DeletesOf(RouteCleanup(names)) + ListsOf(RouteChecked(names)), interrupted)
      ensures !interrupted ==> FoundOut(old(provider.Step()))
    {
      var newDeleted, newAbsence;
      CleanupIsOrdered(initial, provider.cloud, names);
      interrupted, newDeleted, newAbsence := CleanupAndCheck(provider, RouteCleanup(names), RouteChecked(names));
      PassRestores(initial, old(provider.cloud), provider.cloud, names);
      if !interrupted {
        deleted, absence := newDeleted, newAbsence;
      }
    }

    method CleanUp() returns (interrupted: bool)
      requires Bound() && Owned() && created && |absence| == 6 && logout.None? && hostCleanup.None?
      modifies provider, this`dockerConfig, this`remoteRemoved, this`deleted, this`absence, this`protectedRunning
      modifies this`acked, this`logout, this`hostCleanup
      ensures Owned() && |absence| == 6 && old(provider.answered) <= provider.answered
      ensures old(provider.given) <= provider.given && old(provider.check) <= provider.check
      ensures dockerConfig == (old(dockerConfig) && !Happened(logout) && !Happened(hostCleanup))
      ensures acked ==> logout == Some(Works)
      ensures !interrupted ==> (remoteRemoved <==> old(remoteRemoved) || acked || AllTrue(absence))
      ensures Gave(provider, provider.given, old(provider.Step()), HOST_CLEANUP + ProviderCleanup(names), interrupted)
      ensures HostCleaned(provider, old(provider.Step()), provider.Step(), logout, hostCleanup)
      ensures !interrupted ==> FoundOut(old(provider.Step()) + 3)
      ensures !interrupted && protectedRunning ==> JustAnswered(provider.answered, ProtectedRunning)
      ensures provider.Step() <= old(provider.Step()) + 3 ==> provider.cloud == old(provider.cloud)
    {
      ghost var start := provider.Step();
      interrupted := CleanHost();
      ghost var before := provider.given;
      if interrupted {
        GaveLess(provider, start, before, HOST_CLEANUP, ProviderCleanup(names));
        return;
      }
      interrupted := CleanProvider();
      GaveMore(provider, start, before, HOST_CLEANUP, provider.given, ProviderCleanup(names), interrupted);
    }

    method IsZero(a: array<Byte>) returns (zero: bool)
      ensures zero <==> Zero(a[..])
    {
      zero := true;
      for i := 0 to a.Length
        invariant zero <==> forall j :: 0 <= j < i ==> a[j] == 0
      {
        if a[i] != 0 {
          zero := false;
        }
      }
    }

    /** The payload wiped, and the cleanup flag set to what is known. */
    method Conclude(localRemoved: bool)
      requires |stages| == STAGES
      modifies this`credentialsRemoved, this`stages, payload
      ensures Zero(payload[..])
      ensures credentialsRemoved <==> localRemoved && remoteRemoved
      ensures stages == old(stages)[CLEANUP :=
                credentialsRemoved && AllTrue(absence) && (!old(stages)[PROVIDER_PREFLIGHT] || protectedRunning)]
    {
      Wipe(payload);
      var zeroed := IsZero(payload);
      credentialsRemoved := localRemoved && remoteRemoved && zeroed;
      stages := stages[CLEANUP :=
        credentialsRemoved && AllTrue(absence) && (!stages[PROVIDER_PREFLIGHT] || protectedRunning)];
    }

    /** Nothing of the credential is left, on the workstation or on the instance. */
    ghost predicate CredentialGone()
      reads this`localFile, this`uploadFile, this`dockerConfig, provider`cloud
    {
      !localFile && (HasInstance() ==> !uploadFile && !dockerConfig)
    }

    ghost predicate HasInstance()
      reads provider`cloud
    {
      Resource(Instance, names.instance) in provider.cloud.present
    }

    /** The clean-up knows of the instance: the run did not stop in the registry stage, or cleanup-registry was
        acknowledged, or the six absences were proved. */
    ghost predicate RemoteKnown()
      reads this`stages, this`acked, this`absence
      requires |stages| == STAGES
    {
      (stages[BOOTSTRAP] ==> stages[REGISTRY_PREFETCH]) || acked || AllTrue(absence)
    }

    /** What the report's claim that the registry credentials are removed amounts to. */
    ghost predicate CredentialAccount(claimed: bool, interrupted: bool)
      reads this`created, this`stages, this`acked, this`absence, this`calls, this`logout, this`hostCleanup,
            this`localFile, this`uploadFile, this`dockerConfig, provider`cloud
      requires |stages| == STAGES
    {
      && Left(CredentialGone(), localFile, calls, logout, hostCleanup, HasInstance())
      && (acked ==> logout == Some(Works))
      && Claim(
           calls, CallsRemoved(calls, logout, hostCleanup, HasInstance()), RemoteKnown(), created, claimed, interrupted)
    }

    /** The try block has ended, and nothing of the clean-up has begun. */
    ghost predicate Unsettled(raised: Option<Failure>)
      reads this`calls, this`localFile, this`uploadFile, this`dockerConfig, this`remoteRemoved, this`created,
            this`stages, this`absence, this`logout, this`hostCleanup, this`acked, this`credentialsRemoved
    {
      && |absence| == 6 && logout.None? && hostCleanup.None? && !acked
      && |stages| == STAGES && stages[PROVIDER_PREFLIGHT] == created && !stages[CLEANUP]
      && credentialsRemoved && (!created ==> !absence[0])
      && Matched() && CarriedThrough(calls) && (raised == Some(LocalLeft) <==> LocalErrorOut(calls))
      && (remoteRemoved <==> (stages[BOOTSTRAP] ==> stages[REGISTRY_PREFETCH]))
      && (!created ==> calls == NO_CALLS && !stages[BOOTSTRAP])
    }

    /** So it is when the try block has ended. */
    lemma Ends(raised: Option<Failure>)
      requires absence == [false, false, false, false, false, false]
      requires logout.None? && hostCleanup.None? && !acked && credentialsRemoved && Ended(raised)
      ensures Unsettled(raised)
    {
    }

    /** And its stages. */
    lemma EndedStages(raised: Option<Failure>)
      requires Ended(raised)
      ensures 0 < reached && Reached(stages, reached) && StepsTo(base, reached) <= provider.answered
      ensures passed <==> reached > MONITOR
    {
    }

    /** The clean-up began with this command.  If nothing was created there was none; otherwise the log goes on with
        its fifteen commands, in order and up to the first that is interrupted, and what it found out is so. */
    ghost predicate Cleaned(from: nat, interrupted: bool)
      reads this`created, this`deleted, this`absence, this`protectedRunning, this`logout, this`hostCleanup,
            provider`given, provider`cloud, provider`answered
    {
      match created
      case false => from == provider.Step() && !interrupted
      case true =>
        && Gave(provider, provider.given, from, HOST_CLEANUP + ProviderCleanup(names), interrupted)
        && HostCleaned(provider, from, provider.Step(), logout, hostCleanup)
        && (!interrupted ==>
              Found(provider, names, from + 3, deleted, absence, provider.cloud.present, initial.present))
        && (!interrupted && protectedRunning ==> JustAnswered(provider.answered, ProtectedRunning))
    }

    /** The clean-up and, unless it was interrupted, its flags. */
    method Settle(raised: Option<Failure>, ghost start: nat) returns (interrupted: bool)
      requires Bound() && Owned() && Contained() && Unsettled(raised)
      modifies provider, this`dockerConfig, this`remoteRemoved, this`deleted, this`absence, this`protectedRunning
      modifies this`credentialsRemoved, this`stages, this`acked, this`logout, this`hostCleanup, payload
      ensures Owned() && old(provider.answered) <= provider.answered && Contained() && |absence| == 6
      ensures |stages| == STAGES && stages == old(stages)[CLEANUP := stages[CLEANUP]]
      ensures Cleaned(old(provider.Step()), interrupted) && old(provider.given) <= provider.given
      ensures old(provider.check) <= provider.check
      ensures stages[CLEANUP] ==>
                created && !interrupted && AllTrue(absence) && protectedRunning && credentialsRemoved
      ensures CredentialAccount(credentialsRemoved, interrupted)
      ensures old(Carried(start, raised)) ==> Delivery(start, old(provider.Step()))
    {
      interrupted := false;
      if created {
        interrupted := CleanUp();
        assert RouteChecked(names)[0] == Resource(Instance, names.instance);
      }
      if !interrupted {
        Conclude(raised != Some(LocalLeft));
      }
      Reckoned(interrupted);
    }

    /** The account holds of what a clean-up leaves. */
    lemma Reckoned(interrupted: bool)
      requires |stages| == STAGES
      requires localFile == LocalRemains(calls) && uploadFile == UploadRemains(calls) && CarriedThrough(calls)
      requires dockerConfig ==
                 (Happened(calls.consumed) && calls.login && !Happened(logout) && !Happened(hostCleanup))
      requires (acked ==> logout == Some(Works)) && (interrupted ==> created && credentialsRemoved)
      requires !created ==> credentialsRemoved && calls == NO_CALLS
      requires created && !interrupted ==> (credentialsRemoved <==> !LocalErrorOut(calls) && RemoteKnown())
      ensures CredentialAccount(credentialsRemoved, interrupted)
    {
    }

    /** The finally block.  If the calls of the credential's transfer were the provider's commands from `start` on, the
        clean-up follows them. */
    method Finally(raised: Option<Failure>, ghost start: nat) returns (interrupted: bool)
      requires Bound() && Owned() && Contained() && Unsettled(raised) && (passed ==> raised.None? && created)
      requires passed ==> HasWatched(provider.Step())
      modifies provider, this`dockerConfig, this`remoteRemoved, this`deleted, this`absence, this`protectedRunning
      modifies this`credentialsRemoved, this`stages, this`passed
      modifies this`acked, this`logout, this`hostCleanup, payload
      ensures Owned() && old(provider.answered) <= provider.answered && |absence| == 6
      ensures Zero(payload[..]) && Contained()
      ensures |stages| == STAGES && stages == old(stages)[CLEANUP := stages[CLEANUP]]
      ensures passed <==> old(passed) && stages[CLEANUP]
      ensures old(passed) ==> HasWatched(old(provider.Step()))
      ensures Cleaned(old(provider.Step()), interrupted) && old(provider.given) <= provider.given
      ensures old(provider.check) <= provider.check
      ensures stages[CLEANUP] ==>
                created && !interrupted && AllTrue(absence) && protectedRunning && credentialsRemoved
      ensures CredentialAccount(credentialsRemoved, interrupted)
      ensures old(Carried(start, raised)) ==> Delivery(start, old(provider.Step()))
    {
      ghost var from := provider.Step();
      ghost var delivered, before := Carried(start, raised), passed;
      interrupted := Settle(raised, start);
      assert passed == before && (delivered ==> Delivery(start, from));
      Close(from, interrupted, start, delivered);
      StillWatched(from);
    }

    /** Whatever became of the clean-up: the payload wiped, and no pass without the cleanup flag. */
    method Close(ghost from: nat, ghost interrupted: bool, ghost start: nat, ghost delivered: bool)
      requires |stages| == STAGES && Owned() && Contained()
      requires Cleaned(from, interrupted) && CredentialAccount(credentialsRemoved, interrupted)
      requires delivered ==> Delivery(start, from)
      modifies this`passed, payload
      ensures Zero(payload[..]) && Owned() && Contained()
      ensures Cleaned(from, interrupted) && CredentialAccount(credentialsRemoved, interrupted)
      ensures delivered ==> Delivery(start, from)
      ensures passed <==> old(passed) && stages[CLEANUP]
    {
      Wipe(payload);
      if !stages[CLEANUP] {
        passed := false;
      }
    }

    /** The try block and its finally: `done` is how far the stages came before the clean-up, `from` how many
        commands had been given. */
    method Guarded() returns (raised: Option<Failure>, interrupted: bool, ghost done: seq<bool>, ghost from: nat)
      requires Bound() && AtStart() && WellFormed(provider.cloud)
      modifies provider, samples, this, payload
      ensures 0 < reached && Reached(done, reached) && StepsTo(base, reached) <= provider.answered
      ensures |stages| == STAGES && stages == done[CLEANUP := stages[CLEANUP]]
      ensures passed <==> reached > MONITOR && stages[CLEANUP]
      ensures passed ==> raised.None? && |samples.accepted| >= 3 && HasWatched(from)
      ensures reached > MONITOR <==> raised.None?
      ensures raised.Some? && done[REGISTRY_PREFETCH] ==> Troubled(0, 0) || Late(old(clock) + MAX_STARTUP)
      ensures |absence| == 6 && (stages[CLEANUP] ==>
                created && !interrupted && AllTrue(absence) && protectedRunning)
      ensures Owned() && Cleaned(from, interrupted)
      ensures samples.Valid() && Contained() && Zero(payload[..])
      ensures CredentialAccount(credentialsRemoved, interrupted) && (passed ==> NothingRemains(calls))
      ensures stages[REGISTRY_PREFETCH] ==> VisibleLine(credential, MAX_TOKEN) && Uploadable()
      ensures old(Calm(30, 12)) && Ready() ==> Delivery(old(provider.Step()) + 30, from)
    {
      ghost var start := provider.Step() + 30;
      raised := Try();
      done, from := stages, provider.Step();
      interrupted := Finally(raised, start);
    }

    /** What more commands do not change. */
    twostate lemma StillWatched(n: nat)
      requires old(passed ==> HasWatched(n))
      requires readings == old(readings) && unchanged(samples) && old(provider.given) <= provider.given
      ensures old(passed) ==> HasWatched(n)
    {
      if old(passed) {
        var m: nat :|
          Watched(
            provider, readings, m, old(provider.given), n, samples.accepted,
              samples.places, |samples.required|, monitorMicros);
        PassesStay(provider, readings, readings, old(provider.given),
          provider.given, m, |samples.accepted| - 3, monitorMicros);
        assert Watched(
            provider, readings, m, provider.given, n, samples.accepted,
              samples.places, |samples.required|, monitorMicros);
      }
    }

    /** The try block as its finally finds it. */
    method Try() returns (raised: Option<Failure>)
      requires Bound() && AtStart() && WellFormed(provider.cloud)
      modifies provider, samples, this`clock, this`ticks, this`readings,
        this`stages, this`reached, this`created, this`passed
      modifies this`protectedRunning, this`payload, this`buffers, payload
      modifies this`localFile, this`uploadFile, this`dockerConfig, this`calls, this`remoteRemoved
      ensures Owned() && samples.Valid() && Contained() && Unsettled(raised)
      ensures payload == old(payload) || fresh(payload)
      ensures 0 < reached && Reached(stages, reached) && StepsTo(base, reached) <= provider.answered
      ensures (passed <==> reached > MONITOR) && (passed <==> raised.None?)
      ensures passed ==> created && NothingRemains(calls) && |samples.accepted| >= 3
      ensures passed ==> HasWatched(provider.Step())
      ensures raised.Some? && stages[REGISTRY_PREFETCH] ==> Troubled(0, 0) || Late(old(clock) + MAX_STARTUP)
      ensures stages[REGISTRY_PREFETCH] ==> VisibleLine(credential, MAX_TOKEN) && Uploadable()
      ensures old(Calm(30, 12)) && Ready() ==> Carried(old(provider.Step()) + 30, raised)
    {
      raised := Attempt();
      Ends(raised);
      EndedStages(raised);
    }

    /** The calls of the credential's transfer were the provider's commands from this one on; and if they did not
        all work, the clean-up followed them at once, with the instance in place up to its first delete. */
    ghost predicate Delivery(start: nat, from: nat)
      reads this`created, this`calls, provider`given, provider`cloud
    {
      && created && FromCommands(calls, provider, start) && calls.removed.Some?
      && (!Delivered(calls) ==>
            && from == start + Count(calls)
            && (provider.Step() <= from + 3 ==> Resource(Instance, names.instance) in provider.cloud.present))
    }

    /** When the five deletes and the six listings of a clean-up work, the six absences are proved and the provider is
        as it was. */
    lemma WorkingCleanupRestores(from: nat, interrupted: bool)
      requires Bound() && Owned() && created && Cleaned(from, interrupted) && !interrupted
      requires Clear(provider.script, from + 3, 11)
      ensures AllTrue(absence) && provider.cloud.present == initial.present
    {
      assert Clear(provider.script, from + 3, 5) && resources == PlanResources(names);
      forall i | 0 <= i < 6 ensures absence[i] {
        assert provider.At(from + 8 + i) == Works;
        assert RouteChecked(names)[i] in resources;
      }
    }

    /** execute_lifecycle.  The report is written on every exit; `raised` and `interrupted` say whether
        an exception then goes on, and `from` how many commands were given before the clean-up. */
    method Execute() returns (report: Report, raised: Option<Failure>, interrupted: bool, ghost from: nat)
      requires Bound() && AtStart() && WellFormed(provider.cloud)
      modifies provider, samples, this, payload
      // Stages.
      ensures InOrder(report.stages) && report.stages == stages
      ensures report.passed <==> AllTrue(report.stages)
      ensures report.passed ==>
                && raised.None? && !interrupted && AllTrue(report.absence) && |report.absence| == 6
                && report.protectedRunning && report.healthSamples >= 3 && provider.cloud.present == initial.present
      ensures Performed(report.stages, old(provider.answered), provider.answered)
      // The provider.
      ensures initial.present <= provider.cloud.present <= initial.present + resources
      ensures !created ==> provider.cloud == initial
      // Once creation was begun the clean-up's commands are given, all in order or up to an interrupt of one; what it
      // reports is what they found, and when its deletes and listings work the provider is as it was.
      ensures Cleaned(from, interrupted) && report.deleted == deleted && report.absence == absence
      ensures created && !interrupted && report.deleted == |RouteCleanup(names)| ==>
                provider.cloud.present == initial.present
      ensures created && !interrupted && Clear(provider.script, from + 3, 11) ==>
                AllTrue(report.absence) && provider.cloud.present == initial.present
      // Samples.
      ensures samples.Valid() && report.healthSamples == samples.count && report.maxima == samples.maxima
      ensures report.passed ==> HasWatched(from)
      // A run that ends between its registry stage and its clean-up has a reason in the logs.
      ensures report.stages[REGISTRY_PREFETCH] && !report.stages[MONITOR] ==>
                Troubled(0, 0) || Late(old(clock) + MAX_STARTUP)
      // The credential.
      ensures forall b :: b in buffers ==> Zero(b[..])
      ensures report.passed ==> CredentialGone()
      ensures CredentialAccount(report.credentialsRemoved, interrupted)
      // A token the reader accepts and the uploader does not never gets past the registry stage.
      ensures report.stages[REGISTRY_PREFETCH] ==> VisibleLine(credential, MAX_TOKEN) && Uploadable()
      // What a run does whose first thirty commands work, by the commands that come then.
      ensures old(Calm(30, 12)) && Ready() ==> Delivery(old(provider.Step()) + 30, from)
    {
      ghost var done;
      raised, interrupted, done, from := Guarded();
      StagesMean(done, reached, stages[CLEANUP], base, provider.answered);
      if created && !interrupted && Clear(provider.script, from + 3, 11) {
        WorkingCleanupRestores(from, interrupted);
      }
      report := Report(
        passed, stages, raised == Some(HostFailed), samples.count, samples.maxima, deleted, absence, credentialsRemoved,
        protectedRunning);
    }
  }

  // ----- Two runs in which everything works until the credential is transferred -----

  /** The action that reads the uploaded credential fails, the removal of the upload fails, and the process is
      interrupted as soon as the clean-up begins. */
  const LEAK: seq<Outcome> := seq(33, _ => Works) + [ExitsNonzero(false), ExitsNonzero(false)]

  /** The removal of the local file fails, the removal of the upload fails, and the whole clean-up works. */
  const HIDE: seq<Outcome> := seq(32, _ => Works) + [ExitsNonzero(false), ExitsNonzero(false)] + seq(15, _ => Works)

  /** A run on an empty provider with this script, whose questions are all answered with yes. */
  method NewRun(script: seq<Outcome>, names: RouteNames, ceilings: Ceilings, credential: seq<Byte>) returns (run: Run)
    requires names.dht != names.iap && Clear(script, 0, 30)
    requires VisibleLine(credential, MAX_TOKEN) && |credential| <= MAX_UPLOADABLE + 1
    ensures fresh(run) && fresh(run.provider) && fresh(run.samples) && fresh(run.payload)
    ensures run.provider.script == script && run.names == names && run.provider.Step() == 0
    ensures run.Bound() && run.AtStart() && WellFormed(run.provider.cloud) && run.Calm(30, 12) && run.Ready()
  {
    var provider := new Provider(Cloud({}, {}), script, seq(20, _ => true));
    var samples := new SampleLog(ceilings, []);
    run := new Run(provider, names, samples, 0, credential, 0, []);
  }

  method RunScript(script: seq<Outcome>, names: RouteNames, ceilings: Ceilings, credential: seq<Byte>)
    returns (report: Report, interrupted: bool, run: Run, ghost from: nat)
    requires names.dht != names.iap && Clear(script, 0, 30)
    requires VisibleLine(credential, MAX_TOKEN) && |credential| <= MAX_UPLOADABLE + 1
    ensures fresh(run) && fresh(run.provider) && run.provider.script == script && run.names == names
    ensures |run.stages| == STAGES && run.CredentialAccount(report.credentialsRemoved, interrupted)
    ensures run.Delivery(30, from) && run.Cleaned(from, interrupted)
    ensures run.created && !interrupted && Clear(script, from + 3, 11) ==> AllTrue(run.absence)
  {
    run := NewRun(script, names, ceilings, credential);
    var raised;
    report, raised, interrupted, from := run.Execute();
  }

  /** The report's claim is not so in general: after an interrupted clean-up, here at the end of a whole run, the
      uploaded credential is on the running instance. */
  method InterruptedCleanupOverclaims(names: RouteNames, ceilings: Ceilings)
    returns (run: Run, report: Report, interrupted: bool)
    requires names.dht != names.iap
    ensures fresh(run) && fresh(run.provider)
    ensures interrupted && report.credentialsRemoved && !run.CredentialGone()
  {
    ghost var from;
    report, interrupted, run, from := RunScript(LEAK, names, ceilings, [65, NEWLINE]);
    assert UploadRemains(run.calls) && Count(run.calls) == 5;
    assert Interrupts(run.provider.At(from));
  }

  /** Nor is it after a clean-up that worked: here the local credential file is left, and its error was replaced by
      that of the upload's removal. */
  method HiddenFileOverclaims(names: RouteNames, ceilings: Ceilings)
    returns (run: Run, report: Report, interrupted: bool)
    requires names.dht != names.iap
    ensures fresh(run) && fresh(run.provider)
    ensures !interrupted && report.credentialsRemoved && run.localFile
  {
    ghost var from;
    report, interrupted, run, from := RunScript(HIDE, names, ceilings, [65, NEWLINE]);
    assert LeftSilently(run.calls) && Count(run.calls) == 4;
    assert forall i :: 34 <= i < 49 ==> run.provider.At(i) == Works;
  }
}
