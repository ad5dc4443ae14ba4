/** cleanup_run: destroy what a run owns, then scan until three consecutive empty run-tag listings,
    against a provider that may reveal, hide or change machines between any two calls. */
module FlyCleanup {
  import opened Prelude
  import opened FlyJournal
  import opened FlyProvider
  import opened FlyHistory
  import opened Sorting

  const CLEANUP_RECONCILIATION_CONFIRMATIONS: nat := 3

  datatype CleanupError =
    | Provider(failure: Failure)
    | BadInterval
    | NotStable
    | MetadataChanged
    | DestructionUnproved

  /** The local state of one cleanup run. */
  class Reconciliation {
    const api: FlyAPI
    const runId: string
    const tracked: map<string, MachineRecord>
    ghost const start: seq<Event>
    var pending: set<string>
    var destroyed: set<string>
    var bindingErrors: set<string>
    var cleanScans: nat
    var remaining: set<string>
    ghost var log: seq<Event>  // what this cleanup has added to the history

    constructor (api: FlyAPI, runId: string, records: seq<MachineRecord>)
      ensures this.api == api && this.runId == runId && tracked == Tracked(records)
      ensures start == api.History() && log == []
      ensures pending == tracked.Keys && destroyed == {} && bindingErrors == {} && cleanScans == 0 && remaining == {}
      ensures Valid() && Agrees()
    {
      this.api, this.runId, this.tracked, this.start := api, runId, Tracked(records), api.History();
      pending, destroyed, bindingErrors, cleanScans, remaining := Tracked(records).Keys, {}, {}, 0, {};
      log := [];
      new;
      NothingYet(runId, tracked);
    }

    ghost predicate Valid()
      reads this, api`asked
    {
      && api.History() == start + log
      && Entitled(log, runId)
      && Bookkept()
      && AllProved(log, runId, tracked, pending)
    }

    ghost predicate Excused(failure: Failure, since: nat, timeout: nat)
      reads this`log, api`asked, api`now
    {
      Hindered(api, failure, log, runId, tracked, since, timeout)
    }

    /** What is no longer pending is exactly what is listed as destroyed. */
    ghost predicate Bookkept()
      reads this
    {
      && pending <= tracked.Keys
      && destroyed == (set id | id in tracked && id !in pending :: tracked[id].resourceId)
    }

    /** The bookkeeping and the log agree. */
    ghost predicate Agrees()
      reads this
    {
      Settled(log, runId, tracked, bindingErrors, pending)
    }

    method NoteBinding(machine: Machine)
      requires Bookkept()
      modifies this`pending, this`destroyed, this`bindingErrors
      ensures Bookkept()
      ensures pending == old(pending) - if ExactlyBound(machine, runId, tracked) then {machine.id} else {}
      ensures bindingErrors == old(bindingErrors) + if WellBound(machine, runId, tracked) then {} else {machine.id}
    {
      var metadata := machine.metadata;
      if ExactlyBound(machine, runId, tracked) {
        pending := pending - {machine.id};
        destroyed := destroyed + {tracked[machine.id].resourceId};
      } else if metadata.None? || metadata.value.0 != runId {
        bindingErrors := bindingErrors + {machine.id};
      } else {
        if !ValidLabel(metadata.value.1) {
          bindingErrors := bindingErrors + {machine.id};
        }
        if machine.id in tracked {
          bindingErrors := bindingErrors + {machine.id};
        }
      }
    }

    /** A machine shown alive by the run-tag query, or carrying the run, is to be destroyed. */
    predicate IsTarget(machine: Machine, discoveredByTag: bool) {
      !machine.destroyed && (discoveredByTag || (machine.metadata.Some? && machine.metadata.value.0 == runId))
    }

    /** destroy_observed: note the binding, then destroy exactly when entitled. */
    method DestroyObserved(machine: Machine, discoveredByTag: bool, timeout: nat, ghost evidence: Event)
      returns (r: Result<bool, Failure>)
      requires Valid()
      requires evidence in log && machine in Shown(evidence)
      requires discoveredByTag ==> evidence.Scanned? && evidence.run == runId
      modifies this`pending, this`destroyed, this`bindingErrors, this`log, api`asked, api`ticks, api`now
      ensures api.Left() <= old(api.Left()) && api.now >= old(api.now)
      ensures r.Raise? ==> Excused(r.error, old(api.now), timeout)
      ensures api.History() == start + log && Entitled(log, runId)
      ensures Scans(log, runId) == Scans(old(log), runId) && Looks(log) == Looks(old(log))
      ensures r.Ok? ==> Valid()
      ensures r.Ok? ==> r.value == IsTarget(machine, discoveredByTag)
      ensures r.Ok? ==> log == old(log) + if r.value then Destruction(machine.id, true) else []
      ensures r.Raise? ==> log == old(log) || log == old(log) + Destruction(machine.id, false)
      ensures r.Ok? ==> pending == old(pending) -
                        if !machine.destroyed && ExactlyBound(machine, runId, tracked) then {machine.id} else {}
      ensures r.Ok? ==> bindingErrors == old(bindingErrors) +
                        if machine.destroyed || WellBound(machine, runId, tracked) then {} else {machine.id}
    {
      if !ValidProviderId(machine.id) {
        return Raise(BadProviderId);
      }
      if machine.destroyed {
        return Ok(false);
      }
      NoteBinding(machine);
      if discoveredByTag || (machine.metadata.Some? && machine.metadata.value.0 == runId) {
        assert Entitles(evidence, machine.id, runId);
        r := Destroy(machine, timeout, evidence, old(pending));
      } else {
        assert !ExactlyBound(machine, runId, tracked);
        r := Ok(false);
      }
    }

    /** The destruction itself, of a machine that was shown alive, after its binding was noted. */
    method Destroy(machine: Machine, timeout: nat, ghost evidence: Event, ghost before: set<string>)
      returns (r: Result<bool, Failure>)
      requires api.History() == start + log && Entitled(log, runId) && Bookkept()
      requires ValidProviderId(machine.id) && AllProved(log, runId, tracked, before)
      requires pending == before - if ExactlyBound(machine, runId, tracked) then {machine.id} else {}
      requires evidence in log && Entitles(evidence, machine.id, runId)
      requires machine in Shown(evidence) && !machine.destroyed
      modifies this`log, api`asked, api`ticks, api`now
      ensures api.Left() <= old(api.Left()) && api.now >= old(api.now)
      ensures r.Raise? ==> Excused(r.error, old(api.now), timeout)
      ensures api.History() == start + log && Entitled(log, runId)
      ensures Scans(log, runId) == Scans(old(log), runId) && Looks(log) == Looks(old(log))
      ensures r.Ok? ==> Valid() && r.value
      ensures log == old(log) + Destruction(machine.id, r.Ok?)
    {
      var result := api.DestroyMachine(machine.id, timeout);
      DestructionEntitled(log, machine.id, result.Ok?, evidence, runId);
      if result.Ok? {
        DestructionProved(log, machine, evidence, runId, tracked, before);
      }
      Regrouped(start, log, Destruction(machine.id, result.Ok?));
      log := log + Destruction(machine.id, result.Ok?);
      r := if result.Ok? then Ok(true) else Raise(result.error);
    }

    /** Directly resolve every journaled machine, in order; a missing one stays pending. */
    method ResolveTracked(timeout: nat) returns (r: Result<(), Failure>)
      requires Valid() && log == [] && Agrees()
      modifies this`pending, this`destroyed, this`bindingErrors, this`log, api`asked, api`ticks, api`now
      ensures api.Left() <= old(api.Left()) && api.now >= old(api.now)
      ensures r.Raise? ==> Excused(r.error, old(api.now), timeout)
      ensures api.History() == start + log && Entitled(log, runId)
      ensures r.Ok? ==> Valid() && Agrees() && Scans(log, runId) == [] && Looks(log) == SortedSet(tracked.Keys)
    {
      var ids := SortedSet(tracked.Keys);
      for i := 0 to |ids|
        invariant Valid() && Agrees() && api.Left() <= old(api.Left()) && api.now >= old(api.now)
        invariant Scans(log, runId) == [] && Looks(log) == ids[..i]
      {
        assert ids[..i + 1] == ids[..i] + [ids[i]];
        SortedSetMember(tracked.Keys, i);
        var looked := Resolve(ids[i], timeout);
        if looked.Raise? {
          return looked;
        }
      }
      assert ids[..|ids|] == ids;
      r := Ok(());
    }

    /** The direct look at one journaled machine. */
    method Resolve(id: string, timeout: nat) returns (r: Result<(), Failure>)
      requires Valid() && Agrees() && id in tracked
      modifies this`pending, this`destroyed, this`bindingErrors, this`log, api`asked, api`ticks, api`now
      ensures api.Left() <= old(api.Left()) && api.now >= old(api.now)
      ensures r.Raise? ==> Excused(r.error, old(api.now), timeout)
      ensures api.History() == start + log && Entitled(log, runId)
      ensures r.Ok? ==> Valid() && Agrees()
      ensures r.Ok? ==> Scans(log, runId) == Scans(old(log), runId) && Looks(log) == Looks(old(log)) + [id]
    {
      var found := api.GetMachine(id);
      if found.Raise? {
        return Raise(found.error);
      }
      ghost var event := Looked(id, found.value);
      LogObservation(event);
      if found.value.Some? {
        var observed := DestroyObserved(found.value.value, false, timeout, event);
        if observed.Raise? {
          return Raise(observed.error);
        }
      }
      LookSettled(old(log), id, found.value, log, runId, tracked, old(bindingErrors), bindingErrors,
                  old(pending), pending);
      r := Ok(());
    }

    /** Bring the log up to date with an observation the provider has just answered. */
    ghost method LogObservation(event: Event)
      requires event.Looked? || event.Scanned?
      requires api.History() == start + log + [event] && Entitled(log, runId) && Bookkept()
      requires AllProved(log, runId, tracked, pending)
      modifies this`log
      ensures log == old(log) + [event] && Valid()
      ensures Scans(log, runId) ==
              Scans(old(log), runId) + if event.Scanned? && event.run == runId then [event.machines] else []
      ensures Looks(log) == Looks(old(log)) + if event.Looked? then [event.id] else []
    {
      EntitledExtends(log, event, runId);
      ScansExtend(log, event, runId);
      log := log + [event];
      assert api.History() == start + log;
      ProofsStay(old(log), log, runId, tracked, pending);
    }

    /** One machine that a scan showed alive. */
    method ActOn(machine: Machine, timeout: nat, ghost event: Event) returns (r: Result<(), Failure>)
      requires Valid() && !machine.destroyed
      requires event.Scanned? && event.run == runId && machine in event.machines && event in log
      modifies this`pending, this`destroyed, this`bindingErrors, this`log, this`remaining
      modifies api`asked, api`ticks, api`now
      ensures api.Left() <= old(api.Left()) && api.now >= old(api.now)
      ensures r.Raise? ==> Excused(r.error, old(api.now), timeout)
      ensures api.History() == start + log && Entitled(log, runId)
      ensures r.Ok? ==> Valid() && log == old(log) + Destruction(machine.id, true)
      ensures r.Ok? ==> Scans(log, runId) == Scans(old(log), runId) && Looks(log) == Looks(old(log))
      ensures r.Ok? ==> pending == old(pending) - if ExactlyBound(machine, runId, tracked) then {machine.id} else {}
      ensures r.Ok? ==> bindingErrors == old(bindingErrors) +
                        if Proper(machine, runId, tracked) then {} else {machine.id}
    {
      if machine.metadata.Some? && machine.metadata.value.0 == runId && ValidLabel(machine.metadata.value.1) {
        remaining := remaining + {machine.metadata.value.1};
      } else if !ValidProviderId(machine.id) {
        return Raise(BadProviderId);
      } else {
        bindingErrors := bindingErrors + {machine.id};
      }
      var observed := DestroyObserved(machine, true, timeout, event);
      r := if observed.Ok? then Ok(()) else Raise(observed.error);
    }

    /** One pass over the run-tag listing: destroy everything alive, and count or reset the clean scans. */
    method ScanOnce(timeout: nat) returns (r: Result<(), Failure>)
      requires Valid() && Agrees() && cleanScans == CleanSuffix(Scans(log, runId))
      modifies this`pending, this`destroyed, this`bindingErrors, this`log, this`remaining, this`cleanScans
      modifies api`asked, api`ticks, api`now
      ensures r.Ok? ==> api.Left() < old(api.Left())
      ensures r.Raise? ==> Excused(r.error, old(api.now), timeout)
      ensures api.now >= old(api.now) && api.History() == start + log && Entitled(log, runId)
      ensures r.Ok? ==> Valid() && Agrees() && cleanScans == CleanSuffix(Scans(log, runId))
      ensures r.Ok? ==> Looks(log) == Looks(old(log))
      ensures r.Ok? ==> cleanScans == old(cleanScans) + 1 || cleanScans == 0
      ensures r.Ok? && cleanScans > 0 ==> remaining == {}
    {
      var listing := api.ListRunMachines(runId);
      if listing.Raise? {
        return Raise(listing.error);
      }
      var acted, observedActive := Scan(listing.value, timeout);
      if acted.Raise? {
        return acted;
      }
      Count(Scans(old(log), runId), listing.value, observedActive);
      r := Ok(());
    }

    /** One more scan counted. */
    method Count(ghost before: seq<seq<Machine>>, ghost machines: seq<Machine>, observedActive: bool)
      requires cleanScans == CleanSuffix(before) && (observedActive <==> !Clean(machines))
      modifies this`cleanScans
      ensures cleanScans == CleanSuffix(before + [machines])
      ensures cleanScans == if observedActive then 0 else old(cleanScans) + 1
    {
      CleanSuffixGrows(before, machines);
      cleanScans := if observedActive then 0 else cleanScans + 1;
    }

    /** One answered listing: on the record, and acted on. */
    method Scan(machines: seq<Machine>, timeout: nat) returns (r: Result<(), Failure>, observedActive: bool)
      requires Bookkept() && Entitled(log, runId) && AllProved(log, runId, tracked, pending) && Agrees()
      requires api.History() == start + log + [Scanned(runId, machines)]
      modifies this`pending, this`destroyed, this`bindingErrors, this`log, this`remaining
      modifies api`asked, api`ticks, api`now
      ensures api.Left() <= old(api.Left()) && api.now >= old(api.now)
      ensures r.Raise? ==> Excused(r.error, old(api.now), timeout)
      ensures api.History() == start + log && Entitled(log, runId)
      ensures r.Ok? ==> Valid() && Agrees()
      ensures r.Ok? ==> Scans(log, runId) == Scans(old(log), runId) + [machines] && Looks(log) == Looks(old(log))
      ensures r.Ok? ==> (observedActive <==> !Clean(machines)) && (!observedActive ==> remaining == {})
    {
      LogObservation(Scanned(runId, machines));
      r, observedActive := ActOnAll(machines, timeout, old(log), old(bindingErrors), old(pending));
      if r.Ok? {
        ScanSettled(machines, runId, tracked, old(log), log, old(bindingErrors), bindingErrors, old(pending), pending);
      }
    }

    /** The loop over one listing. */
    method ActOnAll(machines: seq<Machine>, timeout: nat, ghost before: seq<Event>, ghost errors: set<string>,
                    ghost stillPending: set<string>) returns (r: Result<(), Failure>, observedActive: bool)
      requires Valid() && log == before + [Scanned(runId, machines)]
      requires bindingErrors == errors && pending == stillPending
      modifies this`pending, this`destroyed, this`bindingErrors, this`log, this`remaining
      modifies api`asked, api`ticks, api`now
      ensures api.Left() <= old(api.Left()) && api.now >= old(api.now)
      ensures r.Raise? ==> Excused(r.error, old(api.now), timeout)
      ensures api.History() == start + log && Entitled(log, runId)
      ensures r.Ok? ==> Valid() && Scans(log, runId) == Scans(old(log), runId) && Looks(log) == Looks(old(log))
      ensures r.Ok? ==> ActedOn(machines, |machines|, runId, tracked, before, log, errors, bindingErrors,
                                stillPending, pending)
      ensures r.Ok? ==> (observedActive <==> !Clean(machines)) && (!observedActive ==> remaining == {})
    {
      remaining, observedActive := {}, false;
      NothingActedOn(machines, runId, tracked, before, log, errors, stillPending);
      for i := 0 to |machines|
        invariant api.now >= old(api.now) && api.Left() <= old(api.Left())
        invariant Valid() && Scans(log, runId) == Scans(old(log), runId) && Looks(log) == Looks(old(log))
        invariant ActedOn(machines, i, runId, tracked, before, log, errors, bindingErrors, stillPending, pending)
        invariant if observedActive then !Clean(machines) else remaining == {} && DestroyedTo(machines, i)
      {
        if !machines[i].destroyed {
          observedActive := true;
          SeenAlive(machines, i);
        }
        r := ActOnNext(machines, i, timeout, before, errors, stillPending);
        if r.Raise? {
          return r, true;
        }
      }
      ScanEnds(machines);
      r := Ok(());
    }

    /** The next machine of the listing. */
    method ActOnNext(machines: seq<Machine>, i: nat, timeout: nat, ghost before: seq<Event>, ghost errors: set<string>,
                     ghost stillPending: set<string>) returns (r: Result<(), Failure>)
      requires i < |machines| && Valid()
      requires ActedOn(machines, i, runId, tracked, before, log, errors, bindingErrors, stillPending, pending)
      modifies this`pending, this`destroyed, this`bindingErrors, this`log, this`remaining
      modifies api`asked, api`ticks, api`now
      ensures api.Left() <= old(api.Left()) && api.now >= old(api.now)
      ensures r.Raise? ==> Excused(r.error, old(api.now), timeout)
      ensures api.History() == start + log && Entitled(log, runId)
      ensures r.Ok? ==> Valid() && Scans(log, runId) == Scans(old(log), runId) && Looks(log) == Looks(old(log))
      ensures r.Ok? ==> ActedOn(machines, i + 1, runId, tracked, before, log, errors, bindingErrors,
                                stillPending, pending)
      ensures machines[i].destroyed ==> remaining == old(remaining)
    {
      ghost var event := Scanned(runId, machines);
      var machine := machines[i];
      if !machine.destroyed {
        assert event in log by {
          assert log[|before|] == event;
        }
        r := ActOn(machine, timeout, event);
        if r.Raise? {
          return;
        }
      }
      OneMoreActedOn(machines, i, runId, tracked, before, old(log), log, errors, old(bindingErrors), bindingErrors,
                     stillPending, old(pending), pending);
      r := Ok(());
    }

    /** Scan until three consecutive clean scans, or until the deadline passes in between. */
    method ScanUntilStable(deadline: nat, timeout: nat, interval: nat) returns (r: Result<(), CleanupError>)
      requires Valid() && Agrees() && cleanScans == CleanSuffix(Scans(log, runId)) == 0
      modifies this`pending, this`destroyed, this`bindingErrors, this`log, this`remaining, this`cleanScans, api
      ensures api.History() == start + log && Entitled(log, runId) && api.now >= old(api.now)
      ensures r.Ok? ==> Valid() && Agrees() && remaining == {}
      ensures r.Ok? ==> CleanSuffix(Scans(log, runId)) == CLEANUP_RECONCILIATION_CONFIRMATIONS
      ensures r.Ok? ==> Looks(log) == Looks(old(log))
      ensures r.Raise? ==> r.error.Provider? || r.error.NotStable?
      ensures r.Raise? && r.error.Provider? ==> Excused(r.error.failure, old(api.now), timeout)
      ensures r == Raise(NotStable) ==>
                api.now >= deadline && CleanSuffix(Scans(log, runId)) < CLEANUP_RECONCILIATION_CONFIRMATIONS
    {
      while cleanScans < CLEANUP_RECONCILIATION_CONFIRMATIONS
        invariant cleanScans == CleanSuffix(Scans(log, runId)) <= CLEANUP_RECONCILIATION_CONFIRMATIONS
        invariant Valid() && Agrees() && Looks(log) == Looks(old(log))
        invariant (cleanScans > 0 ==> remaining == {}) && api.now >= old(api.now)
        decreases api.Left()
      {
        var scanned := ScanOnce(timeout);
        if scanned.Raise? {
          return Raise(Provider(scanned.error));
        }
        if cleanScans >= CLEANUP_RECONCILIATION_CONFIRMATIONS {
          break;
        }
        var now := api.Monotonic();
        if now >= deadline {
          return Raise(NotStable);
        }
        api.Sleep(if interval < deadline - now then interval else deadline - now);
      }
      r := Ok(());
    }

    method Run(timeout: nat, interval: int) returns (r: Result<(seq<string>, seq<string>), CleanupError>)
      requires Valid() && Agrees() && log == [] && bindingErrors == {} && cleanScans == 0
      requires pending == tracked.Keys
      modifies this, api
      ensures api.History() == start + log && Entitled(log, runId)
      ensures api.now >= old(api.now)
      ensures r == Raise(BadInterval) <==> interval < 0 || interval > timeout
      ensures r == Raise(NotStable) ==> api.now >= old(api.now) + timeout && !Stable(log, runId)
      ensures r.Raise? && r.error.Provider? ==> Excused(r.error.failure, old(api.now), timeout)
      ensures Judged(r, log, runId, tracked)
    {
      if interval < 0 || interval > timeout {
        return Raise(BadInterval);
      }
      var begun := api.Monotonic();
      var deadline := begun + timeout;
      var resolved := ResolveTracked(timeout);
      if resolved.Raise? {
        return Raise(Provider(resolved.error));
      }
      var scanned := ScanUntilStable(deadline, timeout, interval);
      if scanned.Raise? {
        return Raise(scanned.error);
      }
      r := Conclude();
    }

    /** After the last scan: what the bookkeeping says. */
    method Conclude() returns (r: Result<(seq<string>, seq<string>), CleanupError>)
      requires Bookkept() && Agrees() && remaining == {} && AllProved(log, runId, tracked, pending)
      requires Stable(log, runId) && Looks(log) == SortedSet(tracked.Keys)
      ensures r.Ok? || r.error in {MetadataChanged, DestructionUnproved}
      ensures Judged(r, log, runId, tracked)
    {
      Concluded(log, runId, tracked, bindingErrors, pending, destroyed);
      if bindingErrors != {} {
        return Raise(MetadataChanged);
      }
      if pending != {} {
        return Raise(DestructionUnproved);
      }
      r := Ok((SortedSet(destroyed), SortedSet(remaining)));
    }
  }

  /** What the run's end says of the log, when it came to its end: a normal return that every tracked machine was
      destroyed and nothing was badly bound; an error which of the two failed. */
  ghost predicate Judged(
    r: Result<(seq<string>, seq<string>), CleanupError>, log: seq<Event>, runId: string,
    tracked: map<string, MachineRecord>)
  {
    r.Ok? || r.error in {MetadataChanged, DestructionUnproved} ==>
      && Stable(log, runId) && Looks(log) == SortedSet(tracked.Keys) && AllRemoved(log)
      && (AllWellBound(log, runId, tracked) <==> r != Raise(MetadataChanged))
      && (r.Ok? ==> r.value == (SortedSet(set id | id in tracked :: tracked[id].resourceId), []))
      && (r.Ok? ==> AllDestroyed(log, runId, tracked))
      && (r == Raise(DestructionUnproved) ==> SomeUnseen(log, runId, tracked))
  }

  /** The last three answered scans showed nothing alive. */
  predicate Stable(log: seq<Event>, runId: string) {
    CleanSuffix(Scans(log, runId)) >= CLEANUP_RECONCILIATION_CONFIRMATIONS
  }

  /** Every tracked machine was seen under its exact binding and its destruction was confirmed. */
  ghost predicate AllDestroyed(log: seq<Event>, runId: string, tracked: map<string, MachineRecord>) {
    forall id {:trigger ProvedDestroyed(log, id, runId, tracked[id].resourceId)} ::
      id in tracked ==> ProvedDestroyed(log, id, runId, tracked[id].resourceId)
  }

  /** Some tracked machine was never seen alive under its exact binding. */
  ghost predicate SomeUnseen(log: seq<Event>, runId: string, tracked: map<string, MachineRecord>) {
    exists id :: id in tracked && NeverShown(log, id, runId, tracked[id].resourceId)
  }

  predicate NeverShown(log: seq<Event>, id: string, runId: string, resourceId: string) {
    forall e | e in log :: !ShowsBound(e, id, runId, resourceId)
  }

  /** What empty or other bookkeeping means at the end. */
  lemma Concluded(log: seq<Event>, runId: string, tracked: map<string, MachineRecord>, errors: set<string>,
                  pending: set<string>, destroyed: set<string>)
    requires Settled(log, runId, tracked, errors, pending) && AllProved(log, runId, tracked, pending)
    requires pending <= tracked.Keys
    requires destroyed == set id | id in tracked && id !in pending :: tracked[id].resourceId
    ensures AllWellBound(log, runId, tracked) <==> errors == {}
    ensures if pending == {} then AllDestroyed(log, runId, tracked) else SomeUnseen(log, runId, tracked)
    ensures pending == {} ==> destroyed == set id | id in tracked :: tracked[id].resourceId
  {
    if pending != {} {
      var id :| id in pending;
      assert NeverShown(log, id, runId, tracked[id].resourceId);
    }
  }

  /** cleanup_run as its callers see it. */
  method CleanupRun(api: FlyAPI, runId: string, records: seq<MachineRecord>, timeout: nat, interval: int)
    returns (r: Result<(seq<string>, seq<string>), CleanupError>, ghost log: seq<Event>)
    modifies api
    ensures api.History() == old(api.History()) + log
    ensures Entitled(log, runId)
    ensures r.Ok? ==> Destroyed(log, runId, records)
    ensures r.Ok? ==> r.value == (SortedSet(set id | id in Tracked(records) :: Tracked(records)[id].resourceId), [])
    ensures r == Raise(BadInterval) <==> interval < 0 || interval > timeout
    ensures r.Raise? ==> Unproved(api, r.error, log, runId, records, old(api.now), timeout, interval)
    ensures api.now >= old(api.now)
  {
    var run := new Reconciliation(api, runId, records);
    r := run.Run(timeout, interval);
    log := run.log;
    JudgedMeans(r, log, runId, records);
  }

  /** What an error of a cleanup says of its log and of the provider. */
  ghost predicate Unproved(api: FlyAPI, error: CleanupError, log: seq<Event>, runId: string,
                           records: seq<MachineRecord>, since: nat, timeout: nat, interval: int)
    reads api`asked, api`now
  {
    var tracked := Tracked(records);
    match error
    case BadInterval => interval < 0 || interval > timeout
    case NotStable => api.now >= since + timeout && !Stable(log, runId)
    case Provider(failure) => Hindered(api, failure, log, runId, tracked, since, timeout)
    case MetadataChanged => Stable(log, runId) && !AllWellBound(log, runId, tracked)
    case DestructionUnproved =>
      Stable(log, runId) && AllWellBound(log, runId, tracked) && SomeUnseen(log, runId, tracked)
  }

  lemma JudgedMeans(r: Result<(seq<string>, seq<string>), CleanupError>, log: seq<Event>, runId: string,
                    records: seq<MachineRecord>)
    requires Judged(r, log, runId, Tracked(records))
    ensures r.Ok? ==> Destroyed(log, runId, records)
    ensures r.Ok? ==> r.value == (SortedSet(set id | id in Tracked(records) :: Tracked(records)[id].resourceId), [])
    ensures r == Raise(MetadataChanged) ==> Stable(log, runId) && !AllWellBound(log, runId, Tracked(records))
    ensures r == Raise(DestructionUnproved) ==>
              && Stable(log, runId) && AllWellBound(log, runId, Tracked(records))
              && SomeUnseen(log, runId, Tracked(records))
  {
    if r.Ok? {
      ThreeCleanScans(Scans(log, runId));
    }
  }

  /** What a normal return proves of the provider's replies: every tracked machine was looked at; the last three answers
      to the run-tag query showed nothing alive; whatever an answer to it showed alive was sent a DELETE after it, and
      its destruction was confirmed; every tracked machine was seen under its exact binding and its destruction was
      confirmed; and no machine ever shown alive was bound to anything but this run. */
  ghost predicate Destroyed(log: seq<Event>, runId: string, records: seq<MachineRecord>) {
    var scans, tracked := Scans(log, runId), Tracked(records);
    && Looks(log) == SortedSet(tracked.Keys)
    && |scans| >= 3
    && Clean(scans[|scans| - 1]) && Clean(scans[|scans| - 2]) && Clean(scans[|scans| - 3])
    && AllRemoved(log)
    && AllDestroyed(log, runId, tracked)
    && AllWellBound(log, runId, tracked)
  }

  lemma ThreeCleanScans(scans: seq<seq<Machine>>)
    requires CleanSuffix(scans) >= 3
    ensures |scans| >= 3
    ensures Clean(scans[|scans| - 1]) && Clean(scans[|scans| - 2]) && Clean(scans[|scans| - 3])
  {
    CleanSuffixMeansClean(scans, 0);
    CleanSuffixMeansClean(scans, 1);
    CleanSuffixMeansClean(scans, 2);
  }

  // ----- The controller's cleanup command -----

  datatype ControlError = Journal(journal: JournalError) | WrongRun | Cleanup(cleanup: CleanupError) | NotAllDestroyed

  /** control's cleanup action: returns the journal it writes.  Its own last check, that the destroyed
      resources are exactly the journaled ones and nothing remains, can never fail: the journal reader
      has already refused repeated identities, and cleanup_run has already refused everything else. */
  method ControlCleanup(api: FlyAPI, raw: Json, runId: string, timeout: nat, interval: int)
    returns (r: Result<Json, ControlError>, ghost log: seq<Event>)
    modifies api
    ensures api.History() == old(api.History()) + log
    ensures ReadState(raw, true).Ok? ==> Entitled(log, ReadState(raw, true).value.runId)
    ensures r != Raise(NotAllDestroyed)
    ensures r.Raise? && r.error.Cleanup? ==>
              && ReadState(raw, true).Ok?
              && Unproved(api, r.error.cleanup, log, runId, ReadState(raw, true).value.resources, old(api.now),
                          timeout, interval)
    ensures r.Raise? && r.error.Journal? ==> ReadState(raw, true) == Raise(r.error.journal)
    ensures r == Raise(WrongRun) ==> ReadState(raw, true).Ok? && ReadState(raw, true).value.runId != runId
    ensures r.Ok? ==>
              && ReadState(raw, true).Ok? && ReadState(raw, true).value.runId == runId
              && var state := ReadState(raw, true).value;
                 r.value == StateJson(state.(status := "cleaned")) && Destroyed(log, runId, state.resources)
    ensures r.Ok? ==> ReadState(r.value, true) == Ok(ReadState(raw, true).value.(status := "cleaned"))
  {
    log := [];
    var loaded := LoadState(raw, true);
    if loaded.Raise? {
      return Raise(Journal(loaded.error)), [];
    }
    var state := loaded.value;
    if state.runId != runId {
      return Raise(WrongRun), [];
    }
    var cleaned;
    cleaned, log := CleanupRun(api, runId, state.resources, timeout, interval);
    if cleaned.Raise? {
      return Raise(Cleanup(cleaned.error)), log;
    }
    AcceptedStateIsValid(raw, true);
    TrackedResourcesAreAll(state.resources);
    var tracked := Tracked(state.resources);
    SortingAgrees(ResourceIds(state.resources), set id | id in tracked :: tracked[id].resourceId);
    var (destroyed, remaining) := cleaned.value;
    var expected := SortedSeq(ResourceIds(state.resources));
    if destroyed != expected || remaining != [] {
      return Raise(NotAllDestroyed), log;
    }
    var written := state.(status := "cleaned");
    WrittenStateIsReadBack(written, true);
    r := Ok(StateJson(written));
  }

  lemma TrackedResourcesAreAll(records: seq<MachineRecord>)
    requires Distinct(ProviderIds(records))
    ensures Elements(ResourceIds(records)) ==
            set id | id in Tracked(records) :: Tracked(records)[id].resourceId
  {
    var tracked := Tracked(records);
    TrackedKeepsAll(records);
    forall x | x in Elements(ResourceIds(records)) ensures exists id :: id in tracked && tracked[id].resourceId == x {
      var i :| 0 <= i < |records| && ResourceIds(records)[i] == x;
      assert records[i] in records;
      assert tracked[records[i].providerMachineId].resourceId == x;
    }
    forall id | id in tracked ensures tracked[id].resourceId in Elements(ResourceIds(records)) {
      var i :| 0 <= i < |records| && records[i] == tracked[id];
      assert ResourceIds(records)[i] == tracked[id].resourceId;
    }
  }
}
