/** The provider as the GCP lifecycles meet it: its true resources, and a finite script saying how
    each command goes.  A command may fail before or after taking effect; a listing answers truly or
    not at all; an exhausted script interrupts the process. */
module GcpProvider {
  import opened Prelude
  import opened GcpPlans

  /** The ways a call can leave by raising: the module's own error, any other Exception, or a
      BaseException such as KeyboardInterrupt, which no `except Exception` stops. */
  datatype Signal = OwnError | OtherException | Interrupt

  datatype Outcome =
    | Works
    | ExitsNonzero(effect: bool)
    | Raises(signal: Signal, effect: bool)

  /** The command was carried out, whatever its caller was told. */
  predicate Effect(outcome: Outcome) {
    outcome.Works? || outcome.effect
  }

  /** The call was made and took effect. */
  predicate Happened(call: Option<Outcome>) {
    call.Some? && Effect(call.value)
  }

  /** The call was interrupted. */
  predicate Interrupts(outcome: Outcome) {
    outcome.Raises? && outcome.signal == Interrupt
  }

  /** What a run asks about besides its own resources; the last ones are actions of the route host. */
  datatype Question =
    | ActiveAccount | Upstreams | PrivateCache | MachineType | Accelerator | RegionalQuota | GlobalQuota
    | ProtectedRunning | ApisEnabled | RepositoryMatches | PolicyPrivate | CachedDigest | BuilderRunning | CacheWarm
    | CredentialPrinted | InstanceRunning | HelpersCopied | HelpersInstalled | HostReady
    | UploadPrepared | SentinelTransported | ImagesPrefetched | UploadRemoved
    | PrimaryStarted | StandbyStarted | PrimaryAnswers | StandbyAnswers | AutoChoosesPrimary | AutoChoosesStandby
    | PrimaryStopped | PrimaryRestored

  /** What else a run does. */
  datatype Deed =
    | EnableService | Pause(micros: int) | HealthLook | WriteSecret | CopySecret | EraseSecret
    | CleanupRegistry | StopAllRoutes | CleanupHost

  datatype Command =
    | Creates(cmd: Create)
    | Deletes(removes: set<Resource>)
    | Lists(resource: Resource)
    | Asks(what: Question)
    | Does(deed: Deed)

  /** So many commands from this one on work. */
  predicate Clear(script: seq<Outcome>, from: nat, n: nat) {
    from + n <= |script| && forall i :: from <= i < from + n ==> script[i] == Works
  }

  class Provider {
    const script: seq<Outcome>
    const checks: seq<bool>
    var cloud: Cloud
    var given: seq<Command>             // the commands given so far
    var check: nat                      // how many answers have been taken
    ghost var answered: seq<Question>   // what was asked and answered as it should be, in order

    constructor (cloud: Cloud, script: seq<Outcome>, checks: seq<bool>)
      requires WellFormed(cloud)
      ensures this.cloud == cloud && this.script == script && this.checks == checks
      ensures given == [] && check == 0 && answered == []
    {
      this.cloud, this.script, this.checks, given, check, answered := cloud, script, checks, [], 0, [];
    }

    /** How many commands have been given. */
    function Step(): nat
      reads this`given
    {
      |given|
    }

    /** How many scripted outcomes are left. */
    function Left(): nat
      reads this`given
    {
      if Step() < |script| then |script| - Step() else 0
    }

    /** How the i-th command goes. */
    function At(i: nat): Outcome {
      if i < |script| then script[i] else Raises(Interrupt, false)
    }

    /** How the next command will go. */
    function Coming(): Outcome
      reads this`given
    {
      At(Step())
    }

    /** The next so many commands will work. */
    predicate Smooth(n: nat)
      reads this`given
    {
      Clear(script, Step(), n)
    }

    /** At least so many answers are left, and all of them are yes. */
    predicate AllYes(n: nat)
      reads this`check
    {
      check + n <= |checks| && forall i :: check <= i < |checks| ==> checks[i]
    }

    /** The j-th answer. */
    predicate Yes(j: nat) {
      j < |checks| && checks[j]
    }

    /** What the next answer will be. */
    function Answer(): bool
      reads this`check
    {
      Yes(check)
    }

    method Give(command: Command) returns (outcome: Outcome)
      modifies this`given
      ensures outcome == old(Coming()) && given == old(given) + [command]
    {
      outcome := Coming();
      given := given + [command];
    }

    method Take() returns (yes: bool)
      modifies this`check
      ensures yes == old(Answer()) && check == old(check) + 1
    {
      yes := Answer();
      check := check + 1;
    }

    /** An action of the route host that only has to be acknowledged. */
    method Act(what: Question) returns (outcome: Outcome)
      modifies this`given, this`answered
      ensures outcome == old(Coming()) && given == old(given) + [Asks(what)]
      ensures answered == if outcome.Works? then old(answered) + [what] else old(answered)
    {
      outcome := Give(Asks(what));
      if outcome.Works? {
        answered := answered + [what];
      }
    }

    /** A command with an answer: what the answer is, is up to the script. */
    method Inquire(what: Question) returns (outcome: Outcome, yes: bool)
      modifies this`given, this`check, this`answered
      ensures outcome == old(Coming()) && given == old(given) + [Asks(what)]
      ensures yes == (outcome.Works? && old(Answer())) && check == old(check) + if outcome.Works? then 1 else 0
      ensures answered == if yes then old(answered) + [what] else old(answered)
    {
      outcome := Give(Asks(what));
      yes := false;
      if outcome.Works? {
        yes := Take();
      }
      if yes {
        answered := answered + [what];
      }
    }

    /** A create command: Ok(whether it exited zero). */
    method Create(cmd: Create) returns (r: Result<bool, Signal>)
      modifies this`given, this`cloud
      ensures given == old(given) + [Creates(cmd)]
      ensures cloud == if Effect(old(Coming())) then ApplyCreate(old(cloud), cmd) else old(cloud)
      ensures r == Ok(true) <==> old(Coming()) == Works && CanCreate(old(cloud), cmd)
      ensures r == Raise(Interrupt) <==> Interrupts(old(Coming()))
    {
      var outcome := Give(Creates(cmd));
      match outcome
      case Works =>
        r := Ok(CanCreate(cloud, cmd));
        cloud := ApplyCreate(cloud, cmd);
      case ExitsNonzero(effect) =>
        cloud := if effect then ApplyCreate(cloud, cmd) else cloud;
        r := Ok(false);
      case Raises(signal, effect) =>
        cloud := if effect then ApplyCreate(cloud, cmd) else cloud;
        r := Raise(signal);
    }

    /** A delete command: refused while something else uses what it removes. */
    method Delete(removes: set<Resource>) returns (r: Result<bool, Signal>)
      modifies this`given, this`cloud
      ensures given == old(given) + [Deletes(removes)]
      ensures cloud == if Effect(old(Coming())) then ApplyDelete(old(cloud), removes) else old(cloud)
      ensures r == Ok(true) <==> old(Coming()) == Works && !Blocked(old(cloud), removes)
      ensures r == Ok(true) ==> removes !! cloud.present
      ensures r == Raise(Interrupt) <==> Interrupts(old(Coming()))
    {
      var outcome := Give(Deletes(removes));
      match outcome
      case Works =>
        r := Ok(!Blocked(cloud, removes));
        cloud := ApplyDelete(cloud, removes);
      case ExitsNonzero(effect) =>
        cloud := if effect then ApplyDelete(cloud, removes) else cloud;
        r := Ok(false);
      case Raises(signal, effect) =>
        cloud := if effect then ApplyDelete(cloud, removes) else cloud;
        r := Raise(signal);
    }

    /** A listing filtered to one resource: Ok(None) when it exits nonzero, otherwise whether the
        answer was empty. */
    method ListsNothing(resource: Resource) returns (r: Result<Option<bool>, Signal>)
      modifies this`given
      ensures given == old(given) + [Lists(resource)]
      ensures r == Ok(Some(true)) <==> old(Coming()) == Works && resource !in cloud.present
      ensures r.Ok? && r.value.Some? ==> r.value.value == (resource !in cloud.present)
      ensures r == Raise(Interrupt) <==> Interrupts(old(Coming()))
    {
      var outcome := Give(Lists(resource));
      match outcome
      case Works => r := Ok(Some(resource !in cloud.present));
      case ExitsNonzero(_) => r := Ok(None);
      case Raises(signal, _) => r := Raise(signal);
    }

    /** Any other question. */
    method Check(what: Question) returns (r: Result<bool, Signal>)
      modifies this`given, this`check, this`answered
      ensures given == old(given) + [Asks(what)] && (old(Left()) == 0 ==> r == Raise(Interrupt))
      ensures answered == if r == Ok(true) then old(answered) + [what] else old(answered)
      ensures r == Ok(true) <==> old(Coming()) == Works && old(Answer())
      ensures old(Coming()) == Works ==> r.Ok? && check == old(check) + 1
      ensures old(check) <= check
      ensures r == Raise(Interrupt) <==> Interrupts(old(Coming()))
    {
      var outcome, yes := Inquire(what);
      match outcome
      case Works => r := Ok(yes);
      case ExitsNonzero(_) => r := Raise(OwnError);
      case Raises(signal, _) => r := Raise(signal);
    }
  }

  // ----- What one cleanup pass does -----

  /** From before to after, only resources of these names have gone, none has come, and the edges
      between what is left are as they were. */
  ghost predicate Shrunk(before: Cloud, after: Cloud, names: set<Resource>) {
    && WellFormed(after)
    && before.present - names <= after.present <= before.present
    && after.uses <= before.uses
    && forall e :: e in before.uses && e.0 in after.present && e.1 in after.present ==> e in after.uses
  }

  /** The commands of a pass: every delete, in order, then every listing. */
  function DeletesOf(deletes: seq<set<Resource>>): seq<Command> {
    seq(|deletes|, i requires 0 <= i < |deletes| => Deletes(deletes[i]))
  }

  function ListsOf(checked: seq<Resource>): seq<Command> {
    seq(|checked|, i requires 0 <= i < |checked| => Lists(checked[i]))
  }

  /** From this one on, these were the commands given: all of them and none interrupted, or up to the first that
      was. */
  ghost predicate Gave(
    provider: Provider, given: seq<Command>, start: nat, commands: seq<Command>, interrupted: bool)
  {
    var n := |given| - (if interrupted then 1 else 0);
    && start <= n && given[start..] <= commands
    && (if interrupted then Interrupts(provider.At(n)) else given[start..] == commands)
    && forall i :: start <= i < n ==> !Interrupts(provider.At(i))
  }

  /** One command. */
  lemma GaveOne(provider: Provider, before: seq<Command>, command: Command)
    ensures Gave(provider, before + [command], |before|, [command], Interrupts(provider.At(|before|)))
  {
    assert (before + [command])[|before|..] == [command];
  }

  /** Some commands, and then more. */
  lemma GaveMore(
    provider: Provider, start: nat, before: seq<Command>, some: seq<Command>, given: seq<Command>,
    more: seq<Command>, interrupted: bool)
    requires Gave(provider, before, start, some, false) && before <= given
    requires Gave(provider, given, |before|, more, interrupted)
    ensures Gave(provider, given, start, some + more, interrupted)
  {
    assert given[start..] == some + given[|before|..];
  }

  /** Of a list whose first command was interrupted, the rest was never given. */
  lemma GaveLess(
    provider: Provider, start: nat, given: seq<Command>, some: seq<Command>, more: seq<Command>)
    requires Gave(provider, given, start, some, true)
    ensures Gave(provider, given, start, some + more, true)
  {
  }

  /** Commands that all work are all given. */
  lemma GaveAll(provider: Provider, start: nat, given: seq<Command>, commands: seq<Command>, interrupted: bool)
    requires Gave(provider, given, start, commands, interrupted) && Clear(provider.script, start, |commands|)
    ensures !interrupted && given[start..] == commands && |given| == start + |commands|
  {
  }

  /** The cleanup commands in order, every failure ignored, then the absence checks, every failure
      counted as not absent.  Only an interrupt gets out. */
  method CleanupAndCheck(provider: Provider, deletes: seq<set<Resource>>, checked: seq<Resource>)
    returns (interrupted: bool, deleted: nat, absence: seq<bool>)
    requires WellFormed(provider.cloud)
    modifies provider`given, provider`cloud
    ensures Shrunk(old(provider.cloud), provider.cloud, Removed(deletes))
    ensures !interrupted ==> |absence| == |checked| && deleted <= |deletes|
    ensures old(provider.given) <= provider.given
    ensures Gave(provider, provider.given, old(provider.Step()), DeletesOf(deletes) + ListsOf(checked), interrupted)
    // When every delete exits zero, the provider ends as the plan's own list leaves it; and every delete of a list
    // in the order of what uses what exits zero when its commands work.
    ensures !interrupted && deleted == |deletes| ==> provider.cloud == RunDeletes(old(provider.cloud), deletes)
    ensures old(provider.Smooth(|deletes|)) && !interrupted && Ordered(deletes, old(provider.cloud).uses, {}) ==>
              deleted == |deletes|
    // An absence is claimed exactly when its listing worked and the resource is not there.
    ensures !interrupted ==>
              Listed(provider, old(provider.Step()) + |deletes|, checked, provider.cloud.present, absence)
  {
    interrupted, deleted := DeleteAll(provider, deletes);
    ghost var before := provider.given;
    if interrupted {
      GaveLess(provider, old(provider.Step()), before, DeletesOf(deletes), ListsOf(checked));
      return true, deleted, [];
    }
    interrupted, absence := ListAll(provider, checked);
    GaveMore(
      provider, old(provider.Step()), before, DeletesOf(deletes), provider.given, ListsOf(checked), interrupted);
  }

  /** Each flag is set exactly when the listing, of this number on, worked and the resource is not there. */
  ghost predicate Listed(
    provider: Provider, start: nat, checked: seq<Resource>, present: set<Resource>, absence: seq<bool>)
  {
    && |absence| == |checked|
    && forall i :: 0 <= i < |checked| ==>
         (absence[i] <==> provider.At(start + i) == Works && checked[i] !in present)
  }

  method ListAll(provider: Provider, checked: seq<Resource>) returns (interrupted: bool, absence: seq<bool>)
    modifies provider`given
    ensures old(provider.given) <= provider.given
    ensures Gave(provider, provider.given, old(provider.Step()), ListsOf(checked), interrupted)
    ensures !interrupted ==> Listed(provider, old(provider.Step()), checked, provider.cloud.present, absence)
  {
    absence, interrupted := [], false;
    ghost var start := provider.Step();
    for i := 0 to |checked|
      invariant |absence| == i && provider.Step() == start + i && old(provider.given) <= provider.given
      invariant Gave(provider, provider.given, start, ListsOf(checked[..i]), false)
      invariant Listed(provider, start, checked[..i], provider.cloud.present, absence)
    {
      ghost var before := provider.given;
      var answer := provider.ListsNothing(checked[i]);
      GaveOne(provider, before, Lists(checked[i]));
      GaveMore(
        provider, start, before, ListsOf(checked[..i]), provider.given, [Lists(checked[i])],
        answer == Raise(Interrupt));
      assert ListsOf(checked[..i]) + [Lists(checked[i])] <= ListsOf(checked);
      if answer == Raise(Interrupt) {
        return true, absence;
      }
      assert ListsOf(checked[..i]) + [Lists(checked[i])] == ListsOf(checked[..i + 1]);
      absence := absence + [answer == Ok(Some(true))];
    }
    assert checked[..|checked|] == checked;
  }

  /** The delete commands of a pass. */
  method DeleteAll(provider: Provider, deletes: seq<set<Resource>>) returns (interrupted: bool, deleted: nat)
    requires WellFormed(provider.cloud)
    modifies provider`given, provider`cloud
    ensures Shrunk(old(provider.cloud), provider.cloud, Removed(deletes))
    ensures deleted <= |deletes| && old(provider.given) <= provider.given
    ensures Gave(provider, provider.given, old(provider.Step()), DeletesOf(deletes), interrupted)
    ensures !interrupted && deleted == |deletes| ==> provider.cloud == RunDeletes(old(provider.cloud), deletes)
    ensures old(provider.Smooth(|deletes|)) && !interrupted && Ordered(deletes, old(provider.cloud).uses, {}) ==>
              deleted == |deletes|
  {
    deleted, interrupted := 0, false;
    ghost var start := provider.Step();
    ghost var gone: set<Resource> := {};
    ghost var free := provider.Smooth(|deletes|) && Ordered(deletes, provider.cloud.uses, {});
    for i := 0 to |deletes|
      invariant Shrunk(old(provider.cloud), provider.cloud, Removed(deletes)) && deleted <= i
      invariant provider.Step() == start + i && old(provider.given) <= provider.given
      invariant Gave(provider, provider.given, start, DeletesOf(deletes[..i]), false)
      invariant deleted == i ==> RunDeletes(provider.cloud, deletes[i..]) == RunDeletes(old(provider.cloud), deletes)
      invariant free ==> deleted == i && gone !! provider.cloud.present
      invariant free ==> Ordered(deletes[i..], provider.cloud.uses, gone)
    {
      assert deletes[i..][0] == deletes[i] && deletes[i..][1..] == deletes[i + 1..];
      RemovedContains(deletes, i);
      if free {
        OrderedStep(provider.cloud, deletes[i..], gone);
        gone := gone + deletes[i];
      }
      var result := DeleteOne(provider, start, deletes, i);
      if result == Raise(Interrupt) {
        return true, deleted;
      }
      if result == Ok(true) {
        deleted := deleted + 1;
      }
    }
    assert deletes[..|deletes|] == deletes;
  }

  method DeleteOne(provider: Provider, ghost start: nat, deletes: seq<set<Resource>>, i: nat)
    returns (r: Result<bool, Signal>)
    requires i < |deletes| && Gave(provider, provider.given, start, DeletesOf(deletes[..i]), false)
    modifies provider`given, provider`cloud
    ensures provider.Step() == old(provider.Step()) + 1 && old(provider.given) <= provider.given
    ensures provider.cloud == if Effect(old(provider.Coming())) then ApplyDelete(old(provider.cloud), deletes[i])
                              else old(provider.cloud)
    ensures r == Ok(true) <==> old(provider.Coming()) == Works && !Blocked(old(provider.cloud), deletes[i])
    ensures if r == Raise(Interrupt) then Gave(provider, provider.given, start, DeletesOf(deletes), true)
            else Gave(provider, provider.given, start, DeletesOf(deletes[..i + 1]), false)
  {
    ghost var before, some, one := provider.given, DeletesOf(deletes[..i]), Deletes(deletes[i]);
    r := provider.Delete(deletes[i]);
    GaveOne(provider, before, one);
    GaveMore(provider, start, before, some, provider.given, [one], r == Raise(Interrupt));
    assert some + [one] == DeletesOf(deletes[..i + 1]);
    assert DeletesOf(deletes[..i + 1]) <= DeletesOf(deletes);
  }

  /** The last question was answered. */
  predicate JustAnswered(answered: seq<Question>, what: Question) {
    answered != [] && answered[|answered| - 1] == what
  }

  /** _protected_bootstrap_running, any Exception of it ignored. */
  method SeesProtected(provider: Provider) returns (interrupted: bool, running: bool)
    modifies provider`given, provider`check, provider`answered
    ensures old(provider.answered) <= provider.answered && old(provider.given) <= provider.given
    ensures old(provider.check) <= provider.check
    ensures Gave(provider, provider.given, old(provider.Step()), [Asks(ProtectedRunning)], interrupted)
    ensures running ==> !interrupted && JustAnswered(provider.answered, ProtectedRunning)
    ensures running <==> old(provider.Coming()) == Works && old(provider.Answer())
  {
    ghost var before := provider.given;
    var answer := provider.Check(ProtectedRunning);
    GaveOne(provider, before, Asks(ProtectedRunning));
    interrupted, running := answer == Raise(Interrupt), answer == Ok(true);
  }

  lemma {:induction false} RemovedContains(deletes: seq<set<Resource>>, i: nat)
    requires i < |deletes|
    ensures deletes[i] <= Removed(deletes)
  {
    if i > 0 {
      RemovedContains(deletes[1..], i - 1);
    }
  }

  lemma {:induction false} MadeContains(cmds: seq<Create>, i: nat)
    requires i < |cmds|
    ensures cmds[i].makes <= Made(cmds) && Edges(cmds[i]) <= AllEdges(cmds)
  {
    if i > 0 {
      MadeContains(cmds[1..], i - 1);
    }
  }

  predicate AllTrue(flags: seq<bool>) {
    forall i :: 0 <= i < |flags| ==> flags[i]
  }
}
