/** The route host's actions: each loads the private record, commands Docker, and rewrites the record
    in one step.  Any command may fail before or after taking effect, and an action may stop at any
    of them. */
module RouteHost {
  import opened Prelude
  import opened RouteSamples

  type Fingerprint = nat

  /** What both starts of a run must agree on. */
  datatype Binding = Binding(acceptance: nat, peer: nat, address: nat)

  /** The private record. */
  datatype Record = Record(running: map<Role, bool>, binding: Option<Binding>, fingerprints: map<Role, Fingerprint>)

  const EMPTY := Record(map[], None, map[])

  const ROLES: seq<Role> := [Primary, Standby]

  /** The loops over the two routes have passed this one. */
  predicate Passed(i: nat, role: Role) {
    i == 2 || (i == 1 && role == Primary)
  }

  datatype Command = Works | FailsBefore | FailsAfter

  /** Selection of a probe: one candidate, or whichever is available. */
  datatype Selection = Only(role: Role) | Auto

  // ----- Identity over many looks -----

  /** One look sees the fingerprints of the routes recorded as running. */
  type Look = map<Role, Fingerprint>

  /** What is known after these looks: of each route, what was seen last. */
  function Known(looks: seq<Look>): Look {
    if looks == [] then map[] else Known(looks[..|looks| - 1]) + looks[|looks| - 1]
  }

  /** What a look says of each route: unchanged, seen for the first time, or not running. */
  predicate SameAs(known: Look, look: Look, role: Role) {
    role in known && role in look ==> known[role] == look[role]
  }

  predicate Continuous(looks: seq<Look>, i: nat, role: Role)
    requires i < |looks|
  {
    SameAs(Known(looks[..i]), looks[i], role)
  }

  /** The route showed one identity in all these looks. */
  ghost predicate Constant(looks: seq<Look>, role: Role) {
    forall i, j :: 0 <= i < j < |looks| && role in looks[i] && role in looks[j] ==> looks[i][role] == looks[j][role]
  }

  lemma {:induction false} KnownIsLast(looks: seq<Look>, role: Role)
    ensures role in Known(looks) <==> exists i :: 0 <= i < |looks| && role in looks[i]
    ensures Constant(looks, role) ==>
              forall i :: 0 <= i < |looks| && role in looks[i] ==> looks[i][role] == Known(looks)[role]
  {
    if looks != [] {
      var init, last := looks[..|looks| - 1], looks[|looks| - 1];
      KnownIsLast(init, role);
      assert looks == init + [last];
    }
  }

  /** Continuity compares each look with what is known, and by that with all looks before: every look is
      continuous exactly when the identity never changed. */
  lemma {:induction false} ContinuityExactly(looks: seq<Look>, role: Role)
    ensures AllContinuous(looks, role) <==> Constant(looks, role)
  {
    if looks != [] {
      var init, last := looks[..|looks| - 1], looks[|looks| - 1];
      ContinuityExactly(init, role);
      assert looks == init + [last];
      ContinuousOfOneMore(init, last, role);
      ConstantOfOneMore(init, last, role);
    }
  }

  ghost predicate AllContinuous(looks: seq<Look>, role: Role) {
    forall i :: 0 <= i < |looks| ==> Continuous(looks, i, role)
  }

  lemma ContinuousOfOneMore(init: seq<Look>, last: Look, role: Role)
    ensures AllContinuous(init + [last], role) <==> AllContinuous(init, role) && SameAs(Known(init), last, role)
  {
    var looks := init + [last];
    assert looks[..|init|] == init;
    assert Continuous(looks, |init|, role) <==> SameAs(Known(init), last, role);
    forall i | 0 <= i < |init| ensures Continuous(looks, i, role) <==> Continuous(init, i, role) {
      assert looks[..i] == init[..i];
    }
  }

  lemma ConstantOfOneMore(init: seq<Look>, last: Look, role: Role)
    ensures Constant(init + [last], role) <==> Constant(init, role) && SameAs(Known(init), last, role)
  {
    var looks := init + [last];
    KnownIsLast(init, role);
    if Constant(looks, role) {
      assert forall i :: 0 <= i < |init| ==> looks[i] == init[i];
      assert looks[|init|] == last;
    }
  }

  /** A controller accepts only continuous looks.  The identity was the same in every look exactly when
      no look it rejected, or never received, was a change. */
  lemma AcceptedLooksMean(looks: seq<Look>, accepted: set<nat>, role: Role)
    requires forall i | i in accepted :: i < |looks| && Continuous(looks, i, role)
    ensures Constant(looks, role) <==>
            forall i :: 0 <= i < |looks| && i !in accepted ==> Continuous(looks, i, role)
  {
    ContinuityExactly(looks, role);
  }

  // ----- The host -----

  /** The two commands of a start that decide what becomes of its container, None for one that was not given:
      docker run, with whether its name was free, and the write of the record. */
  datatype StartCalls = StartCalls(free: bool, run: Option<Command>, write: Option<Command>) {
    /** docker run took effect. */
    predicate Made() {
      free && run.Some? && run.value != FailsBefore
    }

    predicate Recorded() {
      write.Some? && write.value != FailsBefore
    }

    /** It took effect and failed, or worked and the record was not rewritten. */
    predicate Loses() {
      free && (run == Some(FailsAfter) || (run == Some(Works) && write == Some(FailsBefore)))
    }

    /** The record is written exactly when docker run returned. */
    predicate InOrder() {
      write.Some? <==> free && run == Some(Works)
    }

    predicate Returned() {
      free && run == Some(Works) && write == Some(Works)
    }
  }

  const NO_START := StartCalls(false, None, None)

  class Host {
    const script: seq<Command>
    var used: nat                     // how many commands have been given
    var containers: map<Role, bool>   // Docker's containers of the run, and which are running
    var record: Option<Record>        // state.json
    var directories: set<Role>        // the routes' identity directories
    ghost var lost: set<Role>         // made by a start that did not get to record them
    ghost var looks: seq<Look>        // the looks whose fingerprints were recorded

    constructor (commands: seq<Command>)
      ensures Valid() && script == commands && used == 0 && containers == map[] && record == None
      ensures directories == {} && lost == {} && looks == []
    {
      script, used, containers, record, directories, lost, looks := commands, 0, map[], None, {}, {}, [];
    }

    function Loaded(): Record
      reads this`record
    {
      if record.None? then EMPTY else record.value
    }

    ghost predicate Valid()
      reads this`lost, this`containers, this`record, this`looks
    {
      && lost == containers.Keys - Loaded().running.Keys
      && Loaded().fingerprints == Known(looks)
    }

    /** Docker is as the record says. */
    ghost predicate Truthful()
      reads this`record, this`containers
    {
      forall role | role in Loaded().running :: role in containers && containers[role] == Loaded().running[role]
    }

    /** The next so many commands will work. */
    predicate Working(n: nat)
      reads this`used
    {
      used + n <= |script| && forall i :: used <= i < used + n ==> script[i] == Works
    }

    /** Every command from this one on, so far, worked. */
    predicate DidWork(from: nat)
      reads this`used
    {
      forall i :: from <= i < used ==> CommandAt(i) == Works
    }

    /** How the next command will go. */
    function Coming(): Command
      reads this`used
    {
      CommandAt(used)
    }

    method Next() returns (command: Command)
      modifies this`used
      ensures command == old(Coming()) && used == old(used) + 1
    {
      command := Coming();
      used := used + 1;
    }

    /** A check that changes nothing. */
    method Passes() returns (ok: bool)
      modifies this`used
      ensures used == old(used) + 1 && (ok <==> old(Coming()) == Works)
    {
      var command := Next();
      ok := command == Works;
    }

    /** _atomic_json: the old record or the new one, whatever happens. */
    method Write(value: Record) returns (ok: bool)
      modifies this`used, this`record
      ensures used == old(used) + 1 && (ok <==> old(Coming()) == Works)
      ensures record == if old(Coming()) == FailsBefore then old(record) else Some(value)
    {
      var command := Next();
      if command != FailsBefore {
        record := Some(value);
      }
      ok := command == Works;
    }

    /** docker run --name: refused while the name is taken. */
    method DockerRun(role: Role) returns (ok: bool)
      modifies this`used, this`containers
      ensures used == old(used) + 1 && (ok <==> role !in old(containers) && old(Coming()) == Works)
      ensures containers == if role in old(containers) || old(Coming()) == FailsBefore then old(containers)
                            else old(containers)[role := true]
    {
      var command := Next();
      if command == FailsBefore || role in containers {
        return false;
      }
      containers := containers[role := true];
      ok := command == Works;
    }

    /** docker start, docker stop. */
    method DockerSet(role: Role, running: bool) returns (ok: bool)
      modifies this`used, this`containers
      ensures used == old(used) + 1 && (ok <==> role in old(containers) && old(Coming()) == Works)
      ensures containers == old(containers) || (role in containers && containers == old(containers)[role := running])
      ensures ok ==> role in containers && containers == old(containers)[role := running]
      ensures containers.Keys == old(containers).Keys
    {
      var command := Next();
      if command == FailsBefore || role !in containers {
        return false;
      }
      containers := containers[role := running];
      ok := command == Works;
    }

    /** docker rm --force. */
    method DockerRemove(role: Role) returns (ok: bool)
      modifies this`used, this`containers
      ensures used == old(used) + 1 && (ok <==> old(Coming()) == Works)
      ensures containers == old(containers) || containers == old(containers) - {role}
      ensures ok ==> containers == old(containers) - {role}
    {
      var command := Next();
      if command != FailsBefore {
        containers := containers - {role};
      }
      ok := command == Works;
    }

    // ----- The actions -----

    /** start-primary and start-standby. */
    method Start(role: Role, binding: Binding) returns (ok: bool, ghost calls: StartCalls)
      requires Valid()
      modifies this
      ensures Valid() && looks == old(looks) && calls.InOrder()
      ensures ok <==> calls.Returned()
      ensures ok ==> role !in old(Loaded()).running && role in directories
      ensures ok ==>
                record == Some(Record(old(Loaded()).running[role := true], Some(binding), old(Loaded()).fingerprints))
      ensures ok && old(Loaded()).binding.Some? ==> old(Loaded()).binding.value.acceptance == binding.acceptance
      // A container is made exactly when docker run took effect, and lost exactly when it was then not recorded.
      ensures containers == if calls.Made() then old(containers)[role := true] else old(containers)
      ensures calls.free ==> role !in old(containers)
      ensures lost == if calls.Loses() then old(lost) + {role} else old(lost)
      ensures old(Truthful()) && !calls.Loses() ==> Truthful()
      ensures role in old(directories) ==> calls == NO_START && record == old(record)
      ensures !calls.Recorded() ==> record == old(record)
      // Where nothing stands in the way: three steps, then docker run, then the write.
      ensures old(Startable(role, binding)) && old(Working(3)) ==>
                && calls.free && calls.run == Some(old(CommandAt(used + 3)))
                && (calls.write.Some? ==> calls.write.value == old(CommandAt(used + 4)))
                && used == old(used) + (if calls.write.Some? then 5 else 4)
                && directories == old(directories) + {role}
    {
      calls := NO_START;
      ok := Passes();
      if !ok {
        return;
      }
      var state := Loaded();
      if state.binding.Some? && state.binding.value.acceptance != binding.acceptance {
        return false, calls;
      }
      if role in state.running || role in directories {
        return false, calls;
      }
      var made := Next();
      if made != FailsBefore {
        directories := directories + {role};
      }
      if made != Works {
        return false, calls;
      }
      ok := Passes();               // securing the directory, the image, the time left
      if ok {
        ok, calls := RunAndRecord(role, state.(running := state.running[role := true], binding := Some(binding)));
      }
    }

    /** docker run, and then the record. */
    method RunAndRecord(role: Role, next: Record) returns (ok: bool, ghost calls: StartCalls)
      requires Valid() && role !in Loaded().running
      requires next.running == Loaded().running[role := true] && next.fingerprints == Loaded().fingerprints
      modifies this`used, this`containers, this`record, this`lost
      ensures Valid() && calls.InOrder() && (ok <==> calls.Returned())
      ensures calls.free <==> role !in old(containers)
      ensures calls.run == Some(old(Coming()))
      ensures calls.write.Some? ==> calls.write.value == old(CommandAt(used + 1))
      ensures used == old(used) + (if calls.write.Some? then 2 else 1)
      ensures containers == if calls.Made() then old(containers)[role := true] else old(containers)
      ensures lost == if calls.Loses() then old(lost) + {role} else old(lost)
      ensures record == if calls.Recorded() then Some(next) else old(record)
    {
      calls := StartCalls(role !in containers, Some(Coming()), None);
      ok := DockerRun(role);
      if ok {
        calls := calls.(write := Some(Coming()));
        ok := Write(next);
      }
      lost := containers.Keys - Loaded().running.Keys;
    }

    /** The i-th command of all. */
    function CommandAt(i: nat): Command {
      if i < |script| then script[i] else FailsBefore
    }

    /** Nothing on the host refuses this start. */
    ghost predicate Startable(role: Role, binding: Binding)
      reads this
    {
      && (Loaded().binding == None || Loaded().binding == Some(binding))
      && role !in Loaded().running && role !in directories && role !in containers
    }

    /** The look of the health action: the fingerprint of each route recorded as running, and whether it is
        the one already known. */
    method Inspect(running: map<Role, bool>, known: Look, prints: Look) returns (r: Option<(map<Role, bool>, Look)>)
      requires running.Keys == {Primary, Standby}
      modifies this`used
      ensures r.Some? ==>
                && SeenAs(r.value.1, running, prints)
                && r.value.0.Keys == {Primary, Standby}
                && forall role | role in r.value.0 :: r.value.0[role] == SameAs(known, r.value.1, role)
      ensures prints.Keys == {Primary, Standby} && (forall role | role in running :: running[role])
              && old(Working(2)) ==>
                r.Some? && used == old(used) + 2
      ensures old(used) <= used
      ensures r.Some? <==> DidWork(old(used)) && forall role | role in running && running[role] :: role in prints
    {
      var flags: map<Role, bool>, seen: Look := map[], map[];
      forall role: Role ensures role in running {
        assert role.Primary? || role.Standby?;
      }
      for i := 0 to 2
        modifies this`used
        invariant forall role :: role in flags <==> Passed(i, role)
        invariant forall role | role in running :: role in seen <==> Passed(i, role) && running[role]
        invariant forall role | role in seen :: role in prints && seen[role] == prints[role]
        invariant forall role | role in flags :: flags[role] == SameAs(known, seen, role)
        invariant old(used) <= used && DidWork(old(used))
        invariant forall role | role in running && running[role] && Passed(i, role) :: role in prints
        invariant (forall role | role in running :: running[role]) && old(Working(2)) ==> used == old(used) + i
      {
        var role := ROLES[i];
        if !running[role] {
          flags := flags[role := true];
          continue;
        }
        var ok := Passes();
        if !ok || role !in prints {
          return None;
        }
        flags := flags[role := role !in known || known[role] == prints[role]];
        seen := seen[role := prints[role]];
      }
      assert forall role: Role :: role in flags;
      r := Some((flags, seen));
    }

    /** health: fingerprints are compared and recorded; only then are resources sampled, and that may
        still fail. */
    method Health(prints: Look) returns (continuity: Option<map<Role, bool>>)
      requires Valid()
      modifies this`used, this`record, this`looks
      ensures Valid() && lost == old(lost) && Loaded().running == old(Loaded()).running
      ensures (record == old(record) && looks == old(looks)) || SawRunning(old(looks), old(Loaded()).running, prints)
      ensures continuity.Some? ==>
                && SawRunning(old(looks), old(Loaded()).running, prints)
                && continuity.value.Keys == {Primary, Standby}
                && forall role | role in continuity.value ::
                     continuity.value[role] == Continuous(looks, |looks| - 1, role)
      ensures old(Truthful()) ==> Truthful()
      ensures continuity.Some? <==>
                && DidWork(old(used)) && old(Loaded()).running.Keys == {Primary, Standby}
                && forall role | Runs(old(Loaded()), role) :: role in prints
      ensures old(Loaded()).running == map[Primary := true, Standby := true] && prints.Keys == {Primary, Standby}
              && old(Working(5)) ==>
                continuity.Some? && used == old(used) + 5
    {
      var ok := Passes();
      var state := Loaded();
      if !ok || state.running.Keys != {Primary, Standby} {
        return None;
      }
      var look := Inspect(state.running, state.fingerprints, prints);
      if look.None? {
        return None;
      }
      var (flags, seen) := look.value;
      var changed := Record(state.running, state.binding, state.fingerprints + seen);
      ok := Write(changed);
      if record == Some(changed) {
        looks := looks + [seen];
      }
      var sampled := Passes();
      if !ok || !sampled {
        return None;
      }
      continuity := Some(flags);
    }

    /** The last look is a new one, and saw the fingerprints of exactly the running routes. */
    ghost predicate SawRunning(before: seq<Look>, running: map<Role, bool>, prints: Look)
      reads this`looks
    {
      && |looks| == |before| + 1 && looks[..|before|] == before
      && SeenAs(looks[|before|], running, prints)
    }

    static ghost predicate SeenAs(look: Look, running: map<Role, bool>, prints: Look) {
      && look.Keys == (set role | role in running && running[role])
      && forall role | role in look :: role in prints && look[role] == prints[role]
    }

    /** stop-primary and restore-primary. */
    method SetPrimaryRunning(running: bool) returns (ok: bool)
      requires Valid()
      modifies this`used, this`containers, this`record
      ensures Valid() && Loaded().running.Keys == old(Loaded()).running.Keys && containers.Keys == old(containers).Keys
      ensures record == old(record)
                || record == Some(old(Loaded()).(running := old(Loaded()).running[Primary := running]))
      ensures ok ==>
                && Primary in old(Loaded()).running
                && record == Some(old(Loaded()).(running := old(Loaded()).running[Primary := running]))
      ensures ok ==> Primary in containers && containers == old(containers)[Primary := running]
      ensures ok && old(Truthful()) ==> Truthful()
      ensures ok <==> DidWork(old(used)) && Primary in old(Loaded()).running && Primary in old(containers)
    {
      ok := Passes();
      var state := Loaded();
      if !ok || Primary !in state.running {
        return false;
      }
      ok := DockerSet(Primary, running);
      if !ok {
        return;
      }
      ok := Write(state.(running := state.running[Primary := running]));
    }

    /** probe-primary, probe-standby and probe-auto: which candidate answered. */
    method Probe(selection: Selection) returns (candidate: Option<Role>)
      modifies this`used
      ensures candidate.Some? ==> Available(candidate.value)
      ensures candidate.Some? && selection.Only? ==> candidate.value == selection.role
      ensures candidate.Some? && selection.Auto? ==> (candidate.value == Primary <==> Available(Primary))
      ensures candidate.Some? <==>
                && DidWork(old(used))
                && if selection.Only? then Available(selection.role) else Available(Primary) || Available(Standby)
    {
      var ok := Passes();
      if !ok {
        return None;
      }
      var chosen;
      if selection.Only? {
        chosen := selection.role;
      } else if Available(Primary) {
        chosen := Primary;
      } else if Available(Standby) {
        chosen := Standby;
      } else {
        return None;
      }
      if !Available(chosen) {
        return None;
      }
      ok := Passes();
      candidate := if ok then Some(chosen) else None;
    }

    predicate Available(role: Role)
      reads this`record
    {
      role in Loaded().running && Loaded().running[role]
    }

    /** stop-all: the record is rewritten only after the last container. */
    method StopAll() returns (ok: bool)
      requires Valid()
      modifies this`used, this`containers, this`record
      ensures Valid() && Loaded().running.Keys == old(Loaded()).running.Keys && containers.Keys == old(containers).Keys
      ensures ok ==> forall role | role in Loaded().running :: !Loaded().running[role]
      ensures ok ==> forall role | role in old(Loaded()).running && old(Loaded()).running[role] ::
                       role in containers && !containers[role]
      ensures record == old(record) || forall role | role in Loaded().running :: !Loaded().running[role]
      ensures ok && old(Truthful()) ==> Truthful()
      ensures ok <==> DidWork(old(used)) && forall role | Runs(old(Loaded()), role) :: role in old(containers)
    {
      ok := Passes();
      if !ok {
        return;
      }
      var state := Loaded();
      var running := state.running;
      for i := 0 to 2
        modifies this`used, this`containers
        invariant running.Keys == state.running.Keys && containers.Keys == old(containers).Keys
        invariant DidWork(old(used)) && used > old(used)
        invariant forall role | role in running :: running[role] == (state.running[role] && !Passed(i, role))
        invariant forall role | role in state.running && state.running[role] && Passed(i, role) ::
                    role in containers && !containers[role]
        invariant forall role | role in containers ::
                    containers[role] == (old(containers)[role] && !(Passed(i, role) && Runs(state, role)))
      {
        var role := ROLES[i];
        if role in running && running[role] {
          ok := DockerSet(role, false);
          if !ok {
            return;
          }
          running := running[role := false];
        }
      }
      ok := Write(state.(running := running));
    }

    /** The route is recorded as running. */
    static predicate Runs(state: Record, role: Role) {
      role in state.running && state.running[role]
    }

    /** cleanup: every recorded container is removed, or the record stays. */
    method Cleanup() returns (ok: bool)
      requires Valid()
      modifies this
      ensures Valid() && lost == old(lost)
      ensures forall role | role in old(containers) && role !in containers :: role in old(Loaded()).running
      // A normal return: nothing recorded is left, and what Docker still has is what was lost.
      ensures ok ==> record == None && directories == {} && looks == []
      ensures ok ==> containers.Keys == lost && Truthful()
      ensures record == old(record) || record == None
      ensures ok <==> DidWork(old(used))
      ensures old(record) == None && old(Working(3)) ==> ok
    {
      ok := Passes();               // the registry login
      if !ok {
        return;
      }
      ok := Passes();
      if !ok {
        return;
      }
      var state := Loaded();
      var errors := 0;
      for i := 0 to 2
        modifies this`used, this`containers
        invariant containers.Keys <= old(containers).Keys
        invariant forall role | role in old(containers) && role !in containers :: role in state.running
        invariant state == EMPTY ==> errors == 0 && used == old(used) + 2
        invariant (errors == 0 <==> DidWork(old(used))) && used > old(used)
        invariant errors == 0 ==> forall role | Passed(i, role) && role in state.running :: role !in containers
      {
        var role := ROLES[i];
        if role in state.running {
          var removed := DockerRemove(role);
          if !removed {
            errors := errors + 1;
          }
        }
      }
      if errors > 0 {
        return false;
      }
      assert forall role | role in state.running :: Passed(2, role) && role !in containers;
      var removing := Next();
      if removing != FailsBefore {
        record, looks := None, [];
      }
      if removing != Works {
        return false;
      }
      directories := {};
    }
  }

  // ----- Whole runs -----

  datatype Action =
    | StartAction(role: Role, binding: Binding)
    | HealthAction(prints: Look)
    | SetAction(running: bool)
    | ProbeAction(selection: Selection)
    | StopAllAction
    | CleanupAction

  /** The role this action lost the container of, by its calls. */
  function LostBy(action: Action, calls: StartCalls): set<Role> {
    if action.StartAction? && calls.Loses() then {action.role} else {}
  }

  method Perform(host: Host, action: Action) returns (ok: bool, ghost calls: StartCalls)
    requires host.Valid()
    modifies host
    ensures host.Valid() && calls.InOrder()
    ensures host.lost == old(host.lost) + LostBy(action, calls)
    ensures action.StartAction? ==> (ok <==> calls.Returned())
    ensures ok && old(host.Truthful()) ==> host.Truthful()
    ensures ok && action.CleanupAction? ==> host.containers.Keys == host.lost && host.record == None
  {
    calls := NO_START;
    match action
    case StartAction(role, binding) => ok, calls := host.Start(role, binding);
    case HealthAction(prints) =>
      var continuity := host.Health(prints);
      ok := continuity.Some?;
    case SetAction(running) => ok := host.SetPrimaryRunning(running);
    case ProbeAction(selection) =>
      var candidate := host.Probe(selection);
      ok := candidate.Some?;
    case StopAllAction => ok := host.StopAll();
    case CleanupAction => ok := host.Cleanup();
  }

  /** Any actions in any order, any of them failing anywhere.  While every action returns, the record tells the
      truth.  What is lost is what some start lost, by its two commands; so a cleanup that returns leaves no
      container exactly when no start lost one. */
  method Serve(host: Host, actions: seq<Action>) returns (returned: seq<bool>, ghost calls: seq<StartCalls>)
    requires host.Valid() && host.containers == map[] && host.record == None && host.lost == {}
    modifies host
    ensures host.Valid() && |returned| == |calls| == |actions|
    ensures forall i :: 0 <= i < |actions| ==> calls[i].InOrder()
    ensures forall i :: 0 <= i < |actions| && actions[i].StartAction? ==> (returned[i] <==> calls[i].Returned())
    ensures (forall i :: 0 <= i < |actions| ==> returned[i]) ==> host.Truthful()
    ensures forall role :: role in host.lost <==> exists i :: 0 <= i < |actions| && role in LostBy(actions[i], calls[i])
    ensures actions != [] && actions[|actions| - 1].CleanupAction? && returned[|actions| - 1] ==>
              && host.containers.Keys == host.lost && host.record == None
              && (host.containers == map[] <==> forall i :: 0 <= i < |actions| ==> LostBy(actions[i], calls[i]) == {})
  {
    returned, calls := [], [];
    for i := 0 to |actions|
      invariant host.Valid() && |returned| == |calls| == i
      invariant forall j :: 0 <= j < i ==> calls[j].InOrder()
      invariant forall j :: 0 <= j < i && actions[j].StartAction? ==> (returned[j] <==> calls[j].Returned())
      invariant (forall j :: 0 <= j < i ==> returned[j]) ==> host.Truthful()
      invariant forall role :: role in host.lost <==> exists j :: 0 <= j < i && role in LostBy(actions[j], calls[j])
      invariant i > 0 && actions[i - 1].CleanupAction? && returned[i - 1] ==>
                  host.containers.Keys == host.lost && host.record == None
    {
      ghost var before, known := returned, calls;
      var ok;
      ghost var call;
      ok, call := Perform(host, actions[i]);
      returned, calls := returned + [ok], calls + [call];
      assert forall j :: 0 <= j < i ==> returned[j] == before[j] && calls[j] == known[j];
      assert returned[i] == ok && calls[i] == call;
    }
  }

  /** Fall back and come back: whatever else fails, a probe that answers after a stop that returned names
      the standby, and after a restore that returned the primary. */
  method FallBackAndRestore(host: Host)
    returns (stopped: bool, fallback: Option<Role>, restored: bool, again: Option<Role>)
    requires host.Valid()
    modifies host
    ensures host.Valid()
    ensures stopped && fallback.Some? ==> fallback.value == Standby
    ensures restored && again.Some? ==> again.value == Primary
  {
    stopped := host.SetPrimaryRunning(false);
    fallback := host.Probe(Auto);
    restored := host.SetPrimaryRunning(true);
    again := host.Probe(Auto);
  }

  /** A start whose container was made but whose command failed: the cleanup that follows returns, and
      reports no remaining route, while the container is still there. */
  method LostContainer(binding: Binding) returns (host: Host, started: bool, cleaned: bool)
    ensures fresh(host) && !started && cleaned && Primary in host.containers
  {
    host := new Host([Works, Works, Works, FailsAfter, Works, Works, Works]);
    ghost var calls;
    started, calls := host.Start(Primary, binding);
    cleaned := host.Cleanup();
  }

  /** Both routes are recorded as running, and these are their recorded fingerprints. */
  ghost predicate Recorded(host: Host, known: Look)
    reads host
  {
    && host.Valid() && host.record.Some? && host.record.value.running == map[Primary := true, Standby := true]
    && host.record.value.fingerprints == known && known.Keys == {Primary, Standby}
  }

  /** A health action that nothing disturbs. */
  method UndisturbedLook(host: Host, known: Look, prints: Look) returns (continuity: Option<map<Role, bool>>)
    requires Recorded(host, known) && prints.Keys == {Primary, Standby} && host.Working(5)
    modifies host
    ensures Recorded(host, prints) && host.used == old(host.used) + 5
    ensures continuity.Some? && continuity.value.Keys == {Primary, Standby}
    ensures forall role | role in continuity.value :: continuity.value[role] == (known[role] == prints[role])
  {
    ghost var before := host.looks;
    continuity := host.Health(prints);
    assert host.looks[..|before|] == before && host.looks[|before|] == prints;
    assert Known(host.looks) == known + prints == prints;
  }

  /** Asking again forgets a change of identity: the look that notices it has already recorded the new
      one, so the next look finds nothing changed. */
  method AskingAgainForgets(host: Host, before: Look, after: Look)
    returns (noticed: Option<map<Role, bool>>, forgotten: Option<map<Role, bool>>)
    requires Recorded(host, before) && after.Keys == {Primary, Standby} && before[Primary] != after[Primary]
    requires host.Working(10)
    modifies host
    ensures noticed.Some? && noticed.value.Keys == {Primary, Standby} && !noticed.value[Primary]
    ensures forgotten.Some? && forall role | role in forgotten.value :: forgotten.value[role]
  {
    noticed := UndisturbedLook(host, before, after);
    forgotten := UndisturbedLook(host, after, after);
  }

  /** A new host after both starts, with so many more commands that will work. */
  method BothStarted(binding: Binding, commands: nat) returns (host: Host)
    ensures fresh(host) && host.Valid() && host.Working(commands) && host.looks == []
    ensures host.record.Some? && host.record.value.running == map[Primary := true, Standby := true]
  {
    host := new Host(seq(10 + commands, _ => Works));
    var started;
    ghost var calls;
    started, calls := host.Start(Primary, binding);
    assert started && host.used == 5 && host.lost == {};
    started, calls := host.Start(Standby, binding);
    assert started && host.used == 10;
  }

  /** The same from the very start: two starts, a first look, a look that notices the new identity, and one that
      finds nothing changed. */
  method IdentityForgotten(binding: Binding, before: Look, after: Look)
    returns (host: Host, noticed: Option<map<Role, bool>>, forgotten: Option<map<Role, bool>>)
    requires before.Keys == after.Keys == {Primary, Standby} && before[Primary] != after[Primary]
    ensures fresh(host)
    ensures noticed.Some? && noticed.value.Keys == {Primary, Standby} && !noticed.value[Primary]
    ensures forgotten.Some? && forall role | role in forgotten.value :: forgotten.value[role]
  {
    host := BothStarted(binding, 15);
    var first := host.Health(before);
    assert host.looks[0] == before && host.looks == [before] && Known([before]) == before;
    noticed, forgotten := AskingAgainForgets(host, before, after);
  }
}
