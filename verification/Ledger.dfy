/** The spend ledger as a protocol: what each row commits, what an authorization decides, and why the
    combined ceiling holds.  Amounts are in cents. */
module Ledger {
  import opened Prelude

  const CEILING: nat := 100_00

  datatype Vendor = GCP | FLY

  datatype Entry = Entry(
    runId: string,
    vendor: Vendor,
    purpose: string,
    maximum: nat,
    observed: Option<nat>,
    cleanupProof: string,
    state: string)

  function Committed(e: Entry): nat {
    if e.state == "CLEANED-RELEASED" then 0
    else if (e.state == "CLEANED" || e.state == "CANCELED") && e.observed.Some? then e.observed.value
    else if e.observed.Some? && e.observed.value > e.maximum then e.observed.value
    else e.maximum
  }

  function Total(entries: seq<Entry>): nat {
    if entries == [] then 0 else Total(entries[..|entries| - 1]) + Committed(entries[|entries| - 1])
  }

  /** A proposed run, with the ledger purpose its plan is bound to. */
  datatype Request = Request(runId: string, vendor: Vendor, purpose: string, maximum: nat)

  datatype Authorization = Authorization(
    row: Entry,
    committedBefore: int,
    remainingBefore: int,
    remainingAfter: int,
    reservationRecorded: bool,
    provisioningAuthorized: bool)

  datatype Refusal = Repeated | NotPlanned | Mismatch | OverCeiling

  function PlannedRow(r: Request): Entry {
    Entry(r.runId, r.vendor, r.purpose, r.maximum, None, "Not provisioned", "PLANNED")
  }

  function Named(entries: seq<Entry>, runId: string): seq<Entry> {
    if entries == [] then []
    else
      var rest := Named(entries[..|entries| - 1], runId);
      if entries[|entries| - 1].runId == runId then rest + [entries[|entries| - 1]] else rest
  }

  predicate Matches(e: Entry, r: Request) {
    e.vendor == r.vendor && e.purpose == r.purpose && e.maximum == r.maximum
  }

  /** The decision at the end of build_authorization. */
  function Authorize(entries: seq<Entry>, r: Request): Result<Authorization, Refusal> {
    var existing := Named(entries, r.runId);
    var committed := Total(entries);
    if |existing| > 1 then Raise(Repeated)
    else if |existing| == 1 && existing[0].state != "PLANNED" then Raise(NotPlanned)
    else if |existing| == 1 && !Matches(existing[0], r) then Raise(Mismatch)
    else
      var recorded := |existing| == 1;
      var remainingBefore := if recorded then CEILING - (committed - Committed(existing[0])) else CEILING - committed;
      var remainingAfter := if recorded then CEILING - committed else remainingBefore - r.maximum;
      if remainingBefore < 0 || remainingAfter < 0 then Raise(OverCeiling)
      else Ok(Authorization(
        PlannedRow(r), CEILING - remainingBefore, remainingBefore, remainingAfter, recorded, recorded))
  }

  // ----- Sums -----

  lemma {:induction false} NamedOf(entries: seq<Entry>, runId: string)
    ensures forall e :: e in Named(entries, runId) <==> e in entries && e.runId == runId
  {
    if entries != [] {
      NamedOf(entries[..|entries| - 1], runId);
    }
  }

  lemma {:induction false} PartOfTotal(entries: seq<Entry>, e: Entry)
    requires e in entries
    ensures Committed(e) <= Total(entries)
  {
    var last := |entries| - 1;
    if entries[last] != e {
      PartOfTotal(entries[..last], e);
    }
  }

  lemma {:induction false} TotalOfUpdate(entries: seq<Entry>, i: nat, e: Entry)
    requires i < |entries|
    ensures Total(entries[i := e]) == Total(entries) - Committed(entries[i]) + Committed(e)
  {
    var last := |entries| - 1;
    if i == last {
      assert entries[i := e][..last] == entries[..last];
    } else {
      assert entries[i := e][..last] == entries[..last][i := e];
      TotalOfUpdate(entries[..last], i, e);
    }
  }

  // ----- What a row commits -----

  function Larger(a: nat, b: nat): nat {
    if a < b then b else a
  }

  /** While a row is open it commits its maximum, or what it has already cost if that is more; once it is cleaned or
      cancelled what it cost, if that is known; once released nothing. */
  lemma CommittedMeans(e: Entry)
    ensures e.state !in CLOSED ==> Committed(e) == Larger(e.maximum, if e.observed.Some? then e.observed.value else 0)
    ensures e.state in {"CLEANED", "CANCELED"} ==>
              Committed(e) == if e.observed.Some? then e.observed.value else e.maximum
    ensures e.state == "CLEANED-RELEASED" ==> Committed(e) == 0
  {
  }

  // ----- What an authorization means -----

  /** Authorized to provision exactly when the one row of that run is the planned row of this request
      and the whole ledger, that row included, is within the ceiling: however its rows got there. */
  lemma AuthorizedExactly(entries: seq<Entry>, r: Request)
    ensures (Authorize(entries, r).Ok? && Authorize(entries, r).value.provisioningAuthorized)
       <==> (&& |Named(entries, r.runId)| == 1
             && Named(entries, r.runId)[0].state == "PLANNED"
             && Matches(Named(entries, r.runId)[0], r)
             && Total(entries) <= CEILING)
  {
    NamedOf(entries, r.runId);
    if |Named(entries, r.runId)| == 1 {
      PartOfTotal(entries, Named(entries, r.runId)[0]);
    }
  }

  /** What the rows of other runs commit. */
  function Others(entries: seq<Entry>, runId: string): nat {
    if entries == [] then 0
    else
      Others(entries[..|entries| - 1], runId) +
      if entries[|entries| - 1].runId == runId then 0 else Committed(entries[|entries| - 1])
  }

  /** The sum is what the other runs commit, and what this run's rows do. */
  lemma {:induction false} TotalSplits(entries: seq<Entry>, runId: string)
    ensures Total(entries) == Others(entries, runId) + Total(Named(entries, runId))
  {
    if entries != [] {
      var last := |entries| - 1;
      TotalSplits(entries[..last], runId);
      if entries[last].runId == runId {
        var rest := Named(entries[..last], runId);
        assert (rest + [entries[last]])[..|rest|] == rest;
      }
    }
  }

  /** An authorization is given exactly when the run has no row, or only the planned one of this very request, and what
      the other runs commit leaves room for its maximum, or for what its row commits.  Its figures are those of the
      other runs. */
  lemma GivenExactly(entries: seq<Entry>, r: Request)
    ensures var named, others, given := Named(entries, r.runId), Others(entries, r.runId), Authorize(entries, r);
            && (given.Ok? <==>
                  && others + (if named == [] then r.maximum else Total(named)) <= CEILING
                  && (named == [] || (|named| == 1 && named[0].state == "PLANNED" && Matches(named[0], r))))
            && (given.Ok? ==>
                  && given.value.row == PlannedRow(r)
                  && given.value.committedBefore == others
                  && given.value.remainingBefore == CEILING - others
                  && given.value.remainingAfter ==
                     CEILING - others - (if named == [] then r.maximum else Committed(named[0]))
                  && given.value.reservationRecorded == given.value.provisioningAuthorized == (named != []))
  {
    TotalSplits(entries, r.runId);
    var named := Named(entries, r.runId);
    if |named| == 1 {
      assert named == [named[0]] && Total([]) == 0 && named[..0] == [];
    }
  }

  /** Two operators reserve on one snapshot, and both rows are appended.  If together they break the
      ceiling, neither is authorized to provision, nor is any other run of that ledger. */
  lemma RaceIsCaught(snapshot: seq<Entry>, first: Request, second: Request, asked: Request)
    requires Authorize(snapshot, first).Ok? && Authorize(snapshot, second).Ok?
    requires Total(snapshot + [PlannedRow(first), PlannedRow(second)]) > CEILING
    ensures Authorize(snapshot + [PlannedRow(first), PlannedRow(second)], asked).Ok? ==>
              !Authorize(snapshot + [PlannedRow(first), PlannedRow(second)], asked).value.provisioningAuthorized
  {
    AuthorizedExactly(snapshot + [PlannedRow(first), PlannedRow(second)], asked);
  }

  /** Adding the demanded row and asking again changes nothing but the two flags. */
  lemma AskingAgain(entries: seq<Entry>, r: Request)
    requires Authorize(entries, r).Ok? && !Authorize(entries, r).value.reservationRecorded
    ensures Authorize(entries + [PlannedRow(r)], r)
         == Ok(Authorize(entries, r).value.(reservationRecorded := true, provisioningAuthorized := true))
  {
    var longer := entries + [PlannedRow(r)];
    assert longer[..|entries|] == entries;
    assert Named(longer, r.runId) == [PlannedRow(r)];
  }

  // ----- The ledger over time -----

  /** What may happen to a ledger: a row demanded by an authorization on the current ledger is added;
      a row moves to another open state or has a cost noted; a row is closed, cancelled or released. */
  datatype Step =
    | Reserve(request: Request)
    | Progress(row: nat, state: string, cost: Option<nat>)
    | Close(row: nat, cost: Option<nat>, proof: string)
    | Cancel(row: nat, charged: nat, proof: string)
    | Release(row: nat, proof: string)

  const CLOSED: set<string> := {"CLEANED", "CANCELED", "CLEANED-RELEASED"}

  predicate WithinMaximum(e: Entry, cost: Option<nat>) {
    cost.Some? ==> cost.value <= e.maximum
  }

  predicate Allowed(entries: seq<Entry>, step: Step) {
    match step
    case Reserve(request) =>
      Authorize(entries, request).Ok? && !Authorize(entries, request).value.reservationRecorded
    case Progress(row, state, cost) =>
      row < |entries| && entries[row].state !in CLOSED && state !in CLOSED && WithinMaximum(entries[row], cost)
    case Close(row, cost, _) =>
      row < |entries| && entries[row].state !in CLOSED && WithinMaximum(entries[row], cost)
    case Cancel(row, charged, _) =>
      row < |entries| && entries[row].state !in CLOSED && WithinMaximum(entries[row], Some(charged))
    case Release(row, _) => row < |entries|
  }

  function Apply(entries: seq<Entry>, step: Step): seq<Entry>
    requires Allowed(entries, step)
  {
    match step
    case Reserve(request) => entries + [PlannedRow(request)]
    case Progress(row, state, cost) => entries[row := entries[row].(state := state, observed := cost)]
    case Close(row, cost, proof) =>
      entries[row := entries[row].(state := "CLEANED", observed := cost, cleanupProof := proof)]
    case Cancel(row, charged, proof) =>
      entries[row := entries[row].(state := "CANCELED", observed := Some(charged), cleanupProof := proof)]
    case Release(row, proof) => entries[row := entries[row].(state := "CLEANED-RELEASED", cleanupProof := proof)]
  }

  predicate AllAllowed(entries: seq<Entry>, steps: seq<Step>)
    decreases |steps|
  {
    steps == [] || (Allowed(entries, steps[0]) && AllAllowed(Apply(entries, steps[0]), steps[1..]))
  }

  function ApplyAll(entries: seq<Entry>, steps: seq<Step>): seq<Entry>
    requires AllAllowed(entries, steps)
    decreases |steps|
  {
    if steps == [] then entries else ApplyAll(Apply(entries, steps[0]), steps[1..])
  }

  predicate UniqueRuns(entries: seq<Entry>) {
    forall i, j :: 0 <= i < j < |entries| ==> entries[i].runId != entries[j].runId
  }

  lemma StepKeepsCeiling(entries: seq<Entry>, step: Step)
    requires Allowed(entries, step) && Total(entries) <= CEILING
    ensures Total(Apply(entries, step)) <= CEILING
  {
    var after := Apply(entries, step);
    if step.Reserve? {
      assert after[..|entries|] == entries;
    } else {
      TotalOfUpdate(entries, step.row, after[step.row]);
    }
  }

  lemma StepKeepsUnique(entries: seq<Entry>, step: Step)
    requires Allowed(entries, step) && UniqueRuns(entries)
    ensures UniqueRuns(Apply(entries, step))
  {
    if step.Reserve? {
      NamedOf(entries, step.request.runId);
    }
  }

  /** The ceiling: no sequence of steps takes the committed sum over it, and no run is entered twice. */
  lemma {:induction false} CeilingHolds(entries: seq<Entry>, steps: seq<Step>)
    requires AllAllowed(entries, steps) && Total(entries) <= CEILING && UniqueRuns(entries)
    ensures Total(ApplyAll(entries, steps)) <= CEILING && UniqueRuns(ApplyAll(entries, steps))
    decreases |steps|
  {
    if steps != [] {
      StepKeepsCeiling(entries, steps[0]);
      StepKeepsUnique(entries, steps[0]);
      CeilingHolds(Apply(entries, steps[0]), steps[1..]);
    }
  }

  /** A cost above its row's maximum keeps the ceiling exactly when the sum leaves room for the excess:
      the guard on reservations says nothing about it. */
  lemma OverrunExactly(entries: seq<Entry>, i: nat, cost: nat)
    requires i < |entries| && entries[i].state !in CLOSED && entries[i].observed == None
    requires Total(entries) <= CEILING && cost > entries[i].maximum
    ensures var after := entries[i := entries[i].(state := "CLEANED", observed := Some(cost))];
            Total(after) <= CEILING <==> cost - entries[i].maximum <= CEILING - Total(entries)
  {
    TotalOfUpdate(entries, i, entries[i].(state := "CLEANED", observed := Some(cost)));
  }
}
