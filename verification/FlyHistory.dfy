/** What a history of a Fly run shows: what was seen alive and how it was bound, what the run was entitled to destroy,
    and what is proved destroyed; and how the bookkeeping of a cleanup agrees with it. */
module FlyHistory {
  import opened Prelude
  import opened FlyJournal
  import opened FlyProvider

  // ----- What a history shows -----

  predicate Clean(machines: seq<Machine>) {
    forall i :: 0 <= i < |machines| ==> machines[i].destroyed
  }

  /** None of the first so many is alive. */
  predicate DestroyedTo(machines: seq<Machine>, n: nat) {
    n == 0 || (n <= |machines| && machines[n - 1].destroyed && DestroyedTo(machines, n - 1))
  }

  lemma {:induction false} AllDestroyedTo(machines: seq<Machine>, n: nat)
    requires DestroyedTo(machines, n)
    ensures forall i :: 0 <= i < n ==> machines[i].destroyed
  {
    if n > 0 {
      AllDestroyedTo(machines, n - 1);
    }
  }

  /** What the flag of a scan's loop has seen, machine by machine, is whether the listing was clean. */
  lemma ScanEnds(machines: seq<Machine>)
    ensures DestroyedTo(machines, |machines|) ==> Clean(machines)
  {
    if DestroyedTo(machines, |machines|) {
      AllDestroyedTo(machines, |machines|);
    }
  }

  lemma SeenAlive(machines: seq<Machine>, i: nat)
    requires i < |machines| && !machines[i].destroyed
    ensures !Clean(machines)
  {
  }

  /** What the answered run-tag queries of this run listed, in order. */
  function Scans(h: seq<Event>, runId: string): seq<seq<Machine>> {
    if h == [] then []
    else
      var earlier, last := Scans(h[..|h| - 1], runId), h[|h| - 1];
      if last.Scanned? && last.run == runId then earlier + [last.machines] else earlier
  }

  /** The machines looked at directly, in order. */
  function Looks(h: seq<Event>): seq<string> {
    if h == [] then []
    else
      var earlier, last := Looks(h[..|h| - 1]), h[|h| - 1];
      if last.Looked? then earlier + [last.id] else earlier
  }

  /** How many of the latest scans, counted backwards, showed nothing alive. */
  function CleanSuffix(scans: seq<seq<Machine>>): nat {
    if scans == [] || !Clean(scans[|scans| - 1]) then 0 else 1 + CleanSuffix(scans[..|scans| - 1])
  }

  lemma {:induction false} CleanSuffixMeansClean(scans: seq<seq<Machine>>, k: nat)
    requires k < CleanSuffix(scans)
    ensures k < |scans| && Clean(scans[|scans| - 1 - k])
  {
    if k > 0 {
      CleanSuffixMeansClean(scans[..|scans| - 1], k - 1);
    }
  }

  lemma CleanSuffixGrows(scans: seq<seq<Machine>>, latest: seq<Machine>)
    ensures CleanSuffix(scans + [latest]) == if Clean(latest) then CleanSuffix(scans) + 1 else 0
  {
    assert (scans + [latest])[..|scans|] == scans;
  }

  /** The machines an event shows. */
  function Shown(e: Event): seq<Machine> {
    match e
    case Scanned(_, machines) => machines
    case Looked(_, Some(machine)) => [machine]
    case _ => []
  }

  /** This event entitles the run to destroy the machine: the run-tag query returned it, or its own
      metadata carries the run. */
  ghost predicate Entitles(e: Event, id: string, runId: string) {
    exists m | m in Shown(e) ::
      !m.destroyed && m.id == id &&
      ((e.Scanned? && e.run == runId) || (m.metadata.Some? && m.metadata.value.0 == runId))
  }

  /** Every destroy call came after an event that entitled the run to it. */
  ghost predicate Entitled(h: seq<Event>, runId: string) {
    h == [] ||
    (var earlier, last := h[..|h| - 1], h[|h| - 1];
     && Entitled(earlier, runId)
     && (last.DestroyCalled? ==> exists e | e in earlier :: Entitles(e, last.id, runId)))
  }

  /** The event shows the machine alive under exactly this binding. */
  predicate ShowsBound(e: Event, id: string, runId: string, resourceId: string) {
    exists m | m in Shown(e) :: m.id == id && !m.destroyed && m.metadata == Some((runId, resourceId))
  }

  /** The machine was seen alive under exactly this binding, and its destruction was confirmed after that. */
  ghost predicate ProvedDestroyed(h: seq<Event>, id: string, runId: string, resourceId: string) {
    exists i, j :: 0 <= i < j < |h| && ShowsBound(h[i], id, runId, resourceId) && h[j] == DestroyDone(id)
  }

  // ----- The tracked records -----

  function Tracked(records: seq<MachineRecord>): map<string, MachineRecord> {
    if records == [] then map[]
    else
      var last := records[|records| - 1];
      Tracked(records[..|records| - 1])[last.providerMachineId := last]
  }

  /** With distinct provider machines, tracking forgets no record. */
  lemma {:induction false} TrackedKeepsAll(records: seq<MachineRecord>)
    requires Distinct(ProviderIds(records))
    ensures forall r :: r in records ==>
              r.providerMachineId in Tracked(records) && Tracked(records)[r.providerMachineId] == r
    ensures forall id :: id in Tracked(records) ==> Tracked(records)[id] in records
  {
    if records != [] {
      var n := |records| - 1;
      var init := records[..n];
      assert ProviderIds(init) == ProviderIds(records)[..n];
      TrackedKeepsAll(init);
      forall i | 0 <= i < n ensures records[i].providerMachineId != records[n].providerMachineId {
        assert ProviderIds(records)[i] != ProviderIds(records)[n];
      }
    }
  }

  /** One machine raises no binding error: it carries this run and, when tracked, exactly its
      recorded resource, otherwise a proper label. */
  predicate WellBound(m: Machine, runId: string, tracked: map<string, MachineRecord>) {
    && m.metadata.Some? && m.metadata.value.0 == runId
    && if m.id in tracked then m.metadata.value.1 == tracked[m.id].resourceId
       else ValidLabel(m.metadata.value.1)
  }

  /** Every machine shown alive was well bound. */
  predicate AllWellBound(h: seq<Event>, runId: string, tracked: map<string, MachineRecord>) {
    forall e {:trigger EventWellBound(e, runId, tracked)} :: e in h ==> EventWellBound(e, runId, tracked)
  }

  predicate EventWellBound(e: Event, runId: string, tracked: map<string, MachineRecord>) {
    forall m | m in Shown(e) :: m.destroyed || (WellBound(m, runId, tracked) && (e.Scanned? ==> Labelled(m)))
  }

  /** The machine's resource is a proper label; the scan asks this of tracked machines too. */
  predicate Labelled(m: Machine) {
    m.metadata.Some? && ValidLabel(m.metadata.value.1)
  }

  lemma WellBoundGrows(h: seq<Event>, e: Event, runId: string, tracked: map<string, MachineRecord>)
    ensures AllWellBound(h + [e], runId, tracked) <==>
            AllWellBound(h, runId, tracked) && EventWellBound(e, runId, tracked)
  {
    assert (h + [e])[|h|] == e;
    assert forall x :: x in h ==> x in h + [e];
  }

  // ----- How the history's facts grow -----

  lemma EntitledExtends(h: seq<Event>, e: Event, runId: string)
    requires Entitled(h, runId)
    requires e.DestroyCalled? ==> exists earlier | earlier in h :: Entitles(earlier, e.id, runId)
    ensures Entitled(h + [e], runId)
  {
    assert (h + [e])[..|h + [e]| - 1] == h;
  }

  lemma ScansExtend(h: seq<Event>, e: Event, runId: string)
    ensures Scans(h + [e], runId) == Scans(h, runId) + if e.Scanned? && e.run == runId then [e.machines] else []
    ensures Looks(h + [e]) == Looks(h) + if e.Looked? then [e.id] else []
  {
    assert (h + [e])[..|h + [e]| - 1] == h;
  }

  lemma ProofStays(h: seq<Event>, grown: seq<Event>, id: string, runId: string, resourceId: string)
    requires h <= grown && ProvedDestroyed(h, id, runId, resourceId)
    ensures ProvedDestroyed(grown, id, runId, resourceId)
  {
    var i, j :| 0 <= i < j < |h| && ShowsBound(h[i], id, runId, resourceId) && h[j] == DestroyDone(id);
    assert grown[i] == h[i] && grown[j] == h[j];
  }

  /** An entitled DELETE keeps the history entitled, and shows nothing. */
  lemma CallEntitled(h: seq<Event>, id: string, evidence: Event, runId: string)
    requires Entitled(h, runId) && evidence in h && Entitles(evidence, id, runId)
    ensures var grown := h + [DestroyCalled(id)];
            Entitled(grown, runId) && Scans(grown, runId) == Scans(h, runId) && Looks(grown) == Looks(h)
  {
    EntitledExtends(h, DestroyCalled(id), runId);
    ScansExtend(h, DestroyCalled(id), runId);
  }

  /** And so does its confirmation. */
  lemma DestructionEntitled(h: seq<Event>, id: string, confirmed: bool, evidence: Event, runId: string)
    requires Entitled(h, runId) && evidence in h && Entitles(evidence, id, runId)
    ensures var grown := h + Destruction(id, confirmed);
            Entitled(grown, runId) && Scans(grown, runId) == Scans(h, runId) && Looks(grown) == Looks(h)
  {
    var called := h + [DestroyCalled(id)];
    CallEntitled(h, id, evidence, runId);
    if confirmed {
      assert h + Destruction(id, true) == called + [DestroyDone(id)];
      EntitledExtends(called, DestroyDone(id), runId);
      ScansExtend(called, DestroyDone(id), runId);
    } else {
      assert h + Destruction(id, false) == called;
    }
  }

  /** A confirmed destruction proves the machine destroyed under the binding it was last shown with. */
  lemma DestructionLogged(h: seq<Event>, machine: Machine, evidence: Event, runId: string, resourceId: string)
    requires evidence in h && machine in Shown(evidence) && !machine.destroyed
    requires machine.metadata == Some((runId, resourceId))
    ensures ProvedDestroyed(h + Destruction(machine.id, true), machine.id, runId, resourceId)
  {
    var grown := h + Destruction(machine.id, true);
    assert grown[|h| + 1] == DestroyDone(machine.id);
    var i :| 0 <= i < |h| && h[i] == evidence;
    assert grown[i] == evidence && ShowsBound(grown[i], machine.id, runId, resourceId);
  }

  /** The machine carries exactly the binding its tracked record gives it. */
  predicate ExactlyBound(m: Machine, runId: string, tracked: map<string, MachineRecord>) {
    m.id in tracked && m.metadata == Some((runId, tracked[m.id].resourceId))
  }

  /** Every tracked machine that is no longer pending is proved destroyed under its recorded binding. */
  ghost predicate AllProved(h: seq<Event>, runId: string, tracked: map<string, MachineRecord>, pending: set<string>) {
    forall id {:trigger ProvedDestroyed(h, id, runId, tracked[id].resourceId)} ::
      id in tracked && id !in pending ==> ProvedDestroyed(h, id, runId, tracked[id].resourceId)
  }

  lemma ProofsStay(
      h: seq<Event>, grown: seq<Event>, runId: string, tracked: map<string, MachineRecord>, pending: set<string>)
    requires h <= grown && AllProved(h, runId, tracked, pending)
    ensures AllProved(grown, runId, tracked, pending)
  {
    forall id | id in tracked && id !in pending ensures ProvedDestroyed(grown, id, runId, tracked[id].resourceId) {
      ProofStays(h, grown, id, runId, tracked[id].resourceId);
    }
  }

  /** A confirmed destruction lets go of the machine if it was shown under its exact binding. */
  lemma DestructionProved(
      h: seq<Event>, machine: Machine, evidence: Event, runId: string, tracked: map<string, MachineRecord>,
      before: set<string>)
    requires evidence in h && machine in Shown(evidence) && !machine.destroyed
    requires AllProved(h, runId, tracked, before)
    ensures AllProved(h + Destruction(machine.id, true), runId, tracked,
                      before - if ExactlyBound(machine, runId, tracked) then {machine.id} else {})
  {
    ProofsStay(h, h + Destruction(machine.id, true), runId, tracked, before);
    if ExactlyBound(machine, runId, tracked) {
      DestructionLogged(h, machine, evidence, runId, tracked[machine.id].resourceId);
    }
  }

  // ----- What the bookkeeping knows of the history -----

  /** After this place of the history the machine was sent a DELETE, and its destruction was confirmed. */
  ghost predicate RemovedAfter(h: seq<Event>, place: nat, id: string) {
    exists j :: place < j < |h| - 1 && h[j] == DestroyCalled(id) && h[j + 1] == DestroyDone(id)
  }

  /** Every machine the scan at this place showed alive was removed after it. */
  ghost predicate ScanRemoved(h: seq<Event>, place: nat)
    requires place < |h|
  {
    h[place].Scanned? ==> forall m | m in h[place].machines :: m.destroyed || RemovedAfter(h, place, m.id)
  }

  ghost predicate AllRemoved(h: seq<Event>) {
    forall i {:trigger ScanRemoved(h, i)} :: 0 <= i < |h| ==> ScanRemoved(h, i)
  }

  lemma RemovalStays(h: seq<Event>, grown: seq<Event>, place: nat, id: string)
    requires h <= grown && RemovedAfter(h, place, id)
    ensures RemovedAfter(grown, place, id)
  {
    var j :| place < j < |h| - 1 && h[j] == DestroyCalled(id) && h[j + 1] == DestroyDone(id);
    assert grown[j] == h[j] && grown[j + 1] == h[j + 1];
  }

  lemma DestructionRemoves(h: seq<Event>, place: nat, id: string)
    requires place < |h|
    ensures RemovedAfter(h + Destruction(id, true), place, id)
  {
    var grown := h + Destruction(id, true);
    assert grown[|h|] == DestroyCalled(id) && grown[|h| + 1] == DestroyDone(id);
  }

  /** No machine still pending was ever shown alive under its exact binding. */
  ghost predicate Unseen(h: seq<Event>, runId: string, tracked: map<string, MachineRecord>, pending: set<string>) {
    forall id, e {:trigger ShowsBound(e, id, runId, tracked[id].resourceId)} ::
      id in pending && id in tracked && e in h ==> !ShowsBound(e, id, runId, tracked[id].resourceId)
  }

  /** The bookkeeping and the history agree: there are binding errors exactly when a machine was shown alive under a
      binding it should not have, what is pending was never seen, and what a scan showed alive is gone. */
  ghost predicate Settled(h: seq<Event>, runId: string, tracked: map<string, MachineRecord>,
                          errors: set<string>, pending: set<string>) {
    && (errors == {} <==> AllWellBound(h, runId, tracked))
    && Unseen(h, runId, tracked, pending)
    && AllRemoved(h)
  }

  /** What follows this place of the history shows nothing. */
  predicate QuietAfter(h: seq<Event>, place: nat) {
    forall k :: place < k < |h| ==> h[k].DestroyCalled? || h[k].DestroyDone?
  }

  lemma {:induction false} QuietIsWellBound(
      h: seq<Event>, grown: seq<Event>, place: nat, runId: string, tracked: map<string, MachineRecord>)
    requires place < |h| && h <= grown && QuietAfter(grown, place)
    ensures AllWellBound(grown, runId, tracked) <==> AllWellBound(h, runId, tracked)
    decreases |grown|
  {
    if |grown| > |h| {
      var n := |grown| - 1;
      assert grown == grown[..n] + [grown[n]];
      WellBoundGrows(grown[..n], grown[n], runId, tracked);
      QuietIsWellBound(h, grown[..n], place, runId, tracked);
    } else {
      assert grown == h;
    }
  }

  /** An observation that has been acted on leaves the bookkeeping and the history in agreement. */
  lemma ObservationSettled(h: seq<Event>, e: Event, grown: seq<Event>, runId: string,
                           tracked: map<string, MachineRecord>, errors: set<string>, newErrors: set<string>,
                           pending: set<string>, left: set<string>)
    requires Settled(h, runId, tracked, errors, pending) && left <= pending
    requires h + [e] <= grown && QuietAfter(grown, |h|)
    requires newErrors == {} <==> errors == {} && EventWellBound(e, runId, tracked)
    requires forall m | m in Shown(e) :: !m.destroyed && ExactlyBound(m, runId, tracked) ==> m.id !in left
    requires ScanRemoved(grown, |h|)
    ensures Settled(grown, runId, tracked, newErrors, left)
  {
    WellBoundGrows(h, e, runId, tracked);
    QuietIsWellBound(h + [e], grown, |h|, runId, tracked);
    forall i | 0 <= i < |grown| ensures ScanRemoved(grown, i) {
      if i < |h| {
        ScanStaysRemoved(h, grown, i);
      }
    }
    forall id, x | id in left && id in tracked && x in grown
      ensures !ShowsBound(x, id, runId, tracked[id].resourceId) {
      var i :| 0 <= i < |grown| && grown[i] == x;
      if i < |h| {
        assert h[i] in h && id in pending && h[i] == x;
        assert !ShowsBound(h[i], id, runId, tracked[id].resourceId);
      } else {
        assert i == |h| ==> x == (h + [e])[|h|] == e;
        assert i > |h| ==> Shown(x) == [];
        NotShownBound(x, id, runId, tracked, left);
      }
    }
  }

  lemma NotShownBound(
      e: Event, id: string, runId: string, tracked: map<string, MachineRecord>, left: set<string>)
    requires id in left && id in tracked
    requires forall m | m in Shown(e) :: !m.destroyed && ExactlyBound(m, runId, tracked) ==> m.id !in left
    ensures !ShowsBound(e, id, runId, tracked[id].resourceId)
  {
  }

  /** A direct look that has been acted on. */
  lemma LookSettled(h: seq<Event>, id: string, found: Option<Machine>, grown: seq<Event>, runId: string,
                    tracked: map<string, MachineRecord>, errors: set<string>, newErrors: set<string>,
                    pending: set<string>, left: set<string>)
    requires Settled(h, runId, tracked, errors, pending) && left <= pending
    requires grown == h + [Looked(id, found)] ||
             (found.Some? && grown == h + [Looked(id, found)] + Destruction(found.value.id, true))
    requires found.Some? ==>
               && newErrors == errors + (if found.value.destroyed || WellBound(found.value, runId, tracked) then {}
                                         else {found.value.id})
               && (!found.value.destroyed && ExactlyBound(found.value, runId, tracked) ==> found.value.id !in left)
    requires found.None? ==> newErrors == errors
    ensures Settled(grown, runId, tracked, newErrors, left)
  {
    var event := Looked(id, found);
    assert h + [event] <= grown && grown[|h|] == event;
    assert QuietAfter(grown, |h|);
    assert newErrors == {} <==> errors == {} && EventWellBound(event, runId, tracked);
    ObservationSettled(h, event, grown, runId, tracked, errors, newErrors, pending, left);
  }

  /** None of these machines is alive under a binding it should not have. */
  predicate AllProper(machines: seq<Machine>, runId: string, tracked: map<string, MachineRecord>) {
    forall m | m in machines :: Proper(m, runId, tracked)
  }

  predicate Proper(m: Machine, runId: string, tracked: map<string, MachineRecord>) {
    m.destroyed || (WellBound(m, runId, tracked) && Labelled(m))
  }

  /** The machine was not alive, or it has been removed since this place, and is no longer pending if it was exactly
      bound. */
  ghost predicate Acted(m: Machine, runId: string, tracked: map<string, MachineRecord>, place: nat, h: seq<Event>,
                        left: set<string>) {
    m.destroyed || (RemovedAfter(h, place, m.id) && (ExactlyBound(m, runId, tracked) ==> m.id !in left))
  }

  /** How far a scan has been acted on: so many of its machines, and nothing shown since. */
  ghost predicate ActedOn(machines: seq<Machine>, i: nat, runId: string, tracked: map<string, MachineRecord>,
                          before: seq<Event>, h: seq<Event>, errors: set<string>, newErrors: set<string>,
                          pending: set<string>, left: set<string>)
    requires i <= |machines|
  {
    && before + [Scanned(runId, machines)] <= h && QuietAfter(h, |before|)
    && (newErrors == {} <==> errors == {} && AllProper(machines[..i], runId, tracked))
    && left <= pending
    && forall j {:trigger Acted(machines[j], runId, tracked, |before|, h, left)} ::
         0 <= j < i ==> Acted(machines[j], runId, tracked, |before|, h, left)
  }

  lemma NothingActedOn(machines: seq<Machine>, runId: string, tracked: map<string, MachineRecord>,
                       before: seq<Event>, h: seq<Event>, errors: set<string>, pending: set<string>)
    requires h == before + [Scanned(runId, machines)]
    ensures ActedOn(machines, 0, runId, tracked, before, h, errors, errors, pending, pending)
  {
    assert machines[..0] == [];
  }

  /** The next machine of a scan. */
  lemma OneMoreActedOn(machines: seq<Machine>, i: nat, runId: string, tracked: map<string, MachineRecord>,
                       before: seq<Event>, h: seq<Event>, grown: seq<Event>, errors: set<string>,
                       newErrors: set<string>, newerErrors: set<string>, pending: set<string>, left: set<string>,
                       less: set<string>)
    requires i < |machines|
    requires ActedOn(machines, i, runId, tracked, before, h, errors, newErrors, pending, left)
    requires grown == h + if machines[i].destroyed then [] else Destruction(machines[i].id, true)
    requires newerErrors == newErrors + if Proper(machines[i], runId, tracked) then {} else {machines[i].id}
    requires less == left - if !machines[i].destroyed && ExactlyBound(machines[i], runId, tracked)
                            then {machines[i].id} else {}
    ensures ActedOn(machines, i + 1, runId, tracked, before, grown, errors, newerErrors, pending, less)
  {
    assert machines[..i + 1] == machines[..i] + [machines[i]];
    ProperGrows(machines[..i], machines[i], runId, tracked);
    if !machines[i].destroyed {
      DestructionRemoves(h, |before|, machines[i].id);
    }
    forall j | 0 <= j <= i ensures Acted(machines[j], runId, tracked, |before|, grown, less) {
      assert j < i ==> Acted(machines[j], runId, tracked, |before|, h, left);
      if j < i && !machines[j].destroyed {
        RemovalStays(h, grown, |before|, machines[j].id);
      }
    }
  }

  lemma ProperGrows(machines: seq<Machine>, m: Machine, runId: string, tracked: map<string, MachineRecord>)
    ensures AllProper(machines + [m], runId, tracked) <==>
              AllProper(machines, runId, tracked) && Proper(m, runId, tracked)
  {
    assert (machines + [m])[|machines|] == m;
    assert forall x :: x in machines ==> x in machines + [m];
  }

  /** A scan all of whose machines have been acted on. */
  lemma ScanSettled(machines: seq<Machine>, runId: string, tracked: map<string, MachineRecord>, before: seq<Event>,
                    h: seq<Event>, errors: set<string>, newErrors: set<string>, pending: set<string>, left: set<string>)
    requires Settled(before, runId, tracked, errors, pending)
    requires ActedOn(machines, |machines|, runId, tracked, before, h, errors, newErrors, pending, left)
    ensures Settled(h, runId, tracked, newErrors, left)
  {
    var event, place := Scanned(runId, machines), |before|;
    assert machines[..|machines|] == machines && h[place] == event;
    assert EventWellBound(event, runId, tracked) <==> AllProper(machines, runId, tracked);
    forall m | m in machines ensures Acted(m, runId, tracked, place, h, left) {
      var j :| 0 <= j < |machines| && machines[j] == m;
    }
    assert ScanRemoved(h, place);
    ObservationSettled(before, event, h, runId, tracked, errors, newErrors, pending, left);
  }

  lemma ScanStaysRemoved(h: seq<Event>, grown: seq<Event>, i: nat)
    requires h <= grown && i < |h| && ScanRemoved(h, i)
    ensures ScanRemoved(grown, i)
  {
    if h[i].Scanned? {
      forall m | m in h[i].machines ensures m.destroyed || RemovedAfter(grown, i, m.id) {
        if !m.destroyed {
          RemovalStays(h, grown, i, m.id);
        }
      }
    }
  }

  lemma NothingYet(runId: string, tracked: map<string, MachineRecord>)
    ensures Settled([], runId, tracked, {}, tracked.Keys) && AllProved([], runId, tracked, tracked.Keys)
  {
  }

  lemma Regrouped<T>(a: seq<T>, b: seq<T>, c: seq<T>)
    ensures (a + b) + c == a + (b + c)
  {
  }

  /** A tracked machine, or one that was shown alive, has no proper name. */
  predicate BadlyNamed(log: seq<Event>, tracked: map<string, MachineRecord>) {
    || (exists id | id in tracked :: !ValidProviderId(id))
    || (exists e | e in log :: ShowsBadlyNamed(e))
  }

  predicate ShowsBadlyNamed(e: Event) {
    exists m | m in Shown(e) :: !ValidProviderId(m.id)
  }

  /** The last request was one a cleanup sends. */
  predicate ForCleanup(asked: seq<Request>) {
    asked != [] &&
    match asked[|asked| - 1]
    case Look(_) => true
    case ListRun(_) => true
    case Delete(_) => true
    case Wait(_, state) => state == Gone
    case _ => false
  }

  /** What the provider gave as a reason to stop: no answer to go on with, or none in time; or, to a run without a
      proper label, none at all; or a machine without a proper name. */
  ghost predicate Hindered(
    api: FlyAPI, failure: Failure, log: seq<Event>, runId: string, tracked: map<string, MachineRecord>, since: nat,
    timeout: nat)
    reads api`asked, api`now
  {
    match failure
    case ProviderFailed => api.now >= since + timeout || (api.Unanswered() && ForCleanup(api.asked))
    case BadListing => !ValidLabel(runId) || (api.Unanswered() && ForCleanup(api.asked))
    case BadProviderId => BadlyNamed(log, tracked)
  }
}
