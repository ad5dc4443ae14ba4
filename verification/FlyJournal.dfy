/** The private journal of a Fly qualification run: its writer (to_dict) and its reader
    (load_state), over JSON values. */
module FlyJournal {
  import opened Prelude

  datatype Json =
    | JNull
    | JBool(b: bool)
    | JInt(n: int)
    | JReal(r: real)
    | JStr(s: string)
    | JArr(items: seq<Json>)
    | JObj(fields: map<string, Json>)

  datatype MachineRecord = MachineRecord(
    resourceId: string,
    machineLabel: string,
    providerMachineId: string,
    role: string,
    peerId: string,
    spans: seq<(int, int)>)

  datatype ProviderState = ProviderState(
    runId: string,
    app: string,
    status: string,
    resources: seq<MachineRecord>,
    bootstrapPeer: Option<string>)

  datatype JournalError =
    | BadSchema | BadRunId | BadApp | BadStatus | NotReady | BadResources | BadRecord
    | RepeatedIdentity | BadBootstrapPeer | NotFiveResources | NotOneBootstrap
    | Unhashable    // a TypeError: a list or an object is looked up in a set

  const STATE_FIELDS: set<string> :=
    {"schema_version", "run_id", "app", "status", "resources", "bootstrap_peer"}
  const RECORD_FIELDS: set<string> :=
    {"resource_id", "machine_label", "provider_machine_id", "role", "peer_id", "spans"}
  const STATUSES: set<string> := {"provisioning", "ready", "cleaned", "cleaned_after_failure"}
  const READY_STATUSES: set<string> := {"ready", "cleaned"}
  const RESOURCES: set<string> := {"bootstrap-a", "worker-a", "worker-b", "worker-c", "worker-d"}

  // ----- Field syntax -----

  predicate Lower(c: char) { 'a' <= c <= 'z' }
  predicate Digit(c: char) { '0' <= c <= '9' }
  predicate Alnum(c: char) { Lower(c) || 'A' <= c <= 'Z' || Digit(c) }

  predicate ValidLabel(s: string) {
    && 1 <= |s| <= 64 && Alnum(s[0])
    && forall i :: 1 <= i < |s| ==> Alnum(s[i]) || s[i] == '.' || s[i] == '_' || s[i] == '-'
  }

  predicate ValidApp(s: string) {
    && 1 <= |s| <= 63 && (Lower(s[0]) || Digit(s[0]))
    && forall i :: 1 <= i < |s| ==> Lower(s[i]) || Digit(s[i]) || s[i] == '-'
  }

  predicate ValidProviderId(s: string) {
    && 6 <= |s| <= 128 && Alnum(s[0])
    && forall i :: 1 <= i < |s| ==> Alnum(s[i]) || s[i] == '_' || s[i] == '-'
  }

  predicate ValidPeerId(s: string) {
    20 <= |s| <= 128 && forall i :: 0 <= i < |s| ==> Alnum(s[i])
  }

  predicate Contains(s: string, part: string) {
    exists i | 0 <= i <= |s| :: part <= s[i..]
  }

  predicate ValidBootstrapPeer(peer: Option<string>) {
    peer.Some? ==> |peer.value| <= 2048 && Contains(peer.value, "/p2p/")
  }

  // ----- What a journal may say -----

  predicate ValidSpan(span: (int, int)) {
    0 <= span.0 < span.1
  }

  predicate ValidRecord(r: MachineRecord) {
    && ValidLabel(r.resourceId) && ValidLabel(r.machineLabel)
    && ValidProviderId(r.providerMachineId) && ValidPeerId(r.peerId)
    && (forall i :: 0 <= i < |r.spans| ==> ValidSpan(r.spans[i]))
    && ((r.role == "bootstrap" && r.spans == []) || (r.role == "worker" && |r.spans| == 1))
  }

  function ResourceIds(rs: seq<MachineRecord>): seq<string> {
    seq(|rs|, i requires 0 <= i < |rs| => rs[i].resourceId)
  }

  function MachineLabels(rs: seq<MachineRecord>): seq<string> {
    seq(|rs|, i requires 0 <= i < |rs| => rs[i].machineLabel)
  }

  function ProviderIds(rs: seq<MachineRecord>): seq<string> {
    seq(|rs|, i requires 0 <= i < |rs| => rs[i].providerMachineId)
  }

  function PeerIds(rs: seq<MachineRecord>): seq<string> {
    seq(|rs|, i requires 0 <= i < |rs| => rs[i].peerId)
  }

  /** No two records share a resource, a machine, a provider machine or a PeerID. */
  ghost predicate DistinctIdentities(rs: seq<MachineRecord>) {
    Distinct(ResourceIds(rs)) && Distinct(MachineLabels(rs)) && Distinct(ProviderIds(rs)) && Distinct(PeerIds(rs))
  }

  ghost predicate ValidState(s: ProviderState) {
    && ValidLabel(s.runId) && ValidApp(s.app) && s.status in STATUSES
    && |s.resources| <= 5
    && (forall i :: 0 <= i < |s.resources| ==> ValidRecord(s.resources[i]))
    && DistinctIdentities(s.resources)
    && ValidBootstrapPeer(s.bootstrapPeer)
  }

  function BootstrapCount(rs: seq<MachineRecord>): nat {
    if rs == [] then 0 else (if rs[0].role == "bootstrap" then 1 else 0) + BootstrapCount(rs[1..])
  }

  predicate BindsFiveResources(s: ProviderState) {
    && s.status in READY_STATUSES
    && |s.resources| == 5 && Elements(ResourceIds(s.resources)) == RESOURCES
    && BootstrapCount(s.resources) == 1 && s.bootstrapPeer.Some?
  }

  // ----- The writer -----

  function SpanJson(span: (int, int)): Json {
    JArr([JInt(span.0), JInt(span.1)])
  }

  function RecordJson(r: MachineRecord): Json {
    JObj(map[
      "resource_id" := JStr(r.resourceId),
      "machine_label" := JStr(r.machineLabel),
      "provider_machine_id" := JStr(r.providerMachineId),
      "role" := JStr(r.role),
      "peer_id" := JStr(r.peerId),
      "spans" := JArr(seq(|r.spans|, i requires 0 <= i < |r.spans| => SpanJson(r.spans[i])))])
  }

  function PeerJson(peer: Option<string>): Json {
    if peer.None? then JNull else JStr(peer.value)
  }

  function ResourcesJson(rs: seq<MachineRecord>): seq<Json> {
    seq(|rs|, i requires 0 <= i < |rs| => RecordJson(rs[i]))
  }

  function StateJson(s: ProviderState): Json {
    JObj(map[
      "schema_version" := JInt(1),
      "run_id" := JStr(s.runId),
      "app" := JStr(s.app),
      "status" := JStr(s.status),
      "resources" := JArr(ResourcesJson(s.resources)),
      "bootstrap_peer" := PeerJson(s.bootstrapPeer)])
  }

  // ----- The reader -----

  /** Python's `value == 1`: true and 1.0 are equal to 1. */
  predicate EqualsOne(j: Json) {
    j == JInt(1) || j == JBool(true) || j == JReal(1.0)
  }

  /** Values at the edges of what the reader takes. */
  lemma Edges()
    ensures ValidSpan((0, 1)) && !ValidSpan((3, 3)) && !ValidSpan((-1, 2))
    ensures EqualsOne(JReal(1.0)) && !EqualsOne(JReal(2.0)) && !EqualsOne(JBool(false)) && !EqualsOne(JInt(0))
    ensures IsUnhashable(JArr([])) && IsUnhashable(JObj(map[])) && !IsUnhashable(JStr("")) && !IsUnhashable(JNull)
    ensures ValidApp("a-0") && !ValidApp("aB") && !ValidApp("-a") && !ValidApp("")
    ensures ValidLabel("A._-") && !ValidLabel("_A") && !ValidLabel("a b")
    ensures ValidBootstrapPeer(None) && ValidBootstrapPeer(Some("/p2p/")) && !ValidBootstrapPeer(Some("p2p"))
  {
    assert "/p2p/" <= "/p2p/"[0..];
    assert "aB"[1] == 'B' && "a b"[1] == ' ';
  }

  function ReadSpan(j: Json): Option<(int, int)> {
    if j.JArr? && |j.items| == 2 && j.items[0].JInt? && j.items[1].JInt?
       && ValidSpan((j.items[0].n, j.items[1].n))
    then Some((j.items[0].n, j.items[1].n))
    else None
  }

  function ReadSpans(items: seq<Json>): Option<seq<(int, int)>> {
    if items == [] then Some([])
    else
      var first := ReadSpan(items[0]);
      var rest := ReadSpans(items[1..]);
      if first.Some? && rest.Some? then Some([first.value] + rest.value) else None
  }

  function ReadRecord(j: Json): Option<MachineRecord> {
    if !(j.JObj? && j.fields.Keys == RECORD_FIELDS) then None
    else
      var f := j.fields;
      if !(f["resource_id"].JStr? && f["machine_label"].JStr? && f["provider_machine_id"].JStr?
           && f["role"].JStr? && f["peer_id"].JStr? && f["spans"].JArr?)
      then None
      else
        var spans := ReadSpans(f["spans"].items);
        if spans.None? then None
        else
          var record := MachineRecord(f["resource_id"].s, f["machine_label"].s, f["provider_machine_id"].s,
                                      f["role"].s, f["peer_id"].s, spans.value);
          if ValidRecord(record) then Some(record) else None
  }

  function ReadRecords(items: seq<Json>): Option<seq<MachineRecord>> {
    if items == [] then Some([])
    else
      var rest := ReadRecords(items[..|items| - 1]);
      var last := ReadRecord(items[|items| - 1]);
      if rest.Some? && last.Some? then Some(rest.value + [last.value]) else None
  }

  predicate IsUnhashable(j: Json) {
    j.JArr? || j.JObj?
  }

  /** What a record that cannot be read raises: the role is looked up in a set as soon as the fields are right. */
  function RecordError(j: Json): JournalError {
    if j.JObj? && j.fields.Keys == RECORD_FIELDS && IsUnhashable(j.fields["role"]) then Unhashable else BadRecord
  }

  /** The error of the first record that cannot be read. */
  function RecordsError(items: seq<Json>): JournalError {
    if items == [] then BadRecord
    else if ReadRecords(items[..|items| - 1]).None? then RecordsError(items[..|items| - 1])
    else RecordError(items[|items| - 1])
  }

  predicate RepeatsIdentity(rs: seq<MachineRecord>) {
    || |Elements(ResourceIds(rs))| != |rs|
    || |Elements(MachineLabels(rs))| != |rs|
    || |Elements(ProviderIds(rs))| != |rs|
    || |Elements(PeerIds(rs))| != |rs|
  }

  function ReadState(raw: Json, requireReady: bool): Result<ProviderState, JournalError> {
    if !(raw.JObj? && raw.fields.Keys == STATE_FIELDS && EqualsOne(raw.fields["schema_version"]))
    then Raise(BadSchema)
    else
      var f := raw.fields;
      if !(f["run_id"].JStr? && ValidLabel(f["run_id"].s)) then Raise(BadRunId)
      else if !(f["app"].JStr? && ValidApp(f["app"].s)) then Raise(BadApp)
      else if IsUnhashable(f["status"]) then Raise(Unhashable)
      else if !(f["status"].JStr? && f["status"].s in STATUSES) then Raise(BadStatus)
      else if requireReady && f["status"].s !in READY_STATUSES then Raise(NotReady)
      else if !(f["resources"].JArr? && |f["resources"].items| <= 5) then Raise(BadResources)
      else
        var records := ReadRecords(f["resources"].items);
        if records.None? then Raise(RecordsError(f["resources"].items))
        else if RepeatsIdentity(records.value) then Raise(RepeatedIdentity)
        else if f["bootstrap_peer"] != JNull
                && !(f["bootstrap_peer"].JStr? && ValidBootstrapPeer(Some(f["bootstrap_peer"].s)))
        then Raise(BadBootstrapPeer)
        else
          var peer := if f["bootstrap_peer"] == JNull then None else Some(f["bootstrap_peer"].s);
          var state := ProviderState(f["run_id"].s, f["app"].s, f["status"].s, records.value, peer);
          if requireReady && (|state.resources| != 5 || Elements(ResourceIds(state.resources)) != RESOURCES)
          then Raise(NotFiveResources)
          else if requireReady && (BootstrapCount(state.resources) != 1 || peer.None?) then Raise(NotOneBootstrap)
          else Ok(state)
  }

  /** The reader as the adapter runs it: one pass over the raw records that stops at the first bad one. */
  method LoadState(raw: Json, requireReady: bool) returns (result: Result<ProviderState, JournalError>)
    ensures result == ReadState(raw, requireReady)
  {
    if !raw.JObj? || raw.fields.Keys != STATE_FIELDS || !EqualsOne(raw.fields["schema_version"]) {
      return Raise(BadSchema);
    }
    var f := raw.fields;
    if !f["run_id"].JStr? || !ValidLabel(f["run_id"].s) {
      return Raise(BadRunId);
    }
    if !f["app"].JStr? || !ValidApp(f["app"].s) {
      return Raise(BadApp);
    }
    if IsUnhashable(f["status"]) {
      return Raise(Unhashable);
    }
    if !f["status"].JStr? || f["status"].s !in STATUSES {
      return Raise(BadStatus);
    }
    if requireReady && f["status"].s !in READY_STATUSES {
      return Raise(NotReady);
    }
    if !f["resources"].JArr? || |f["resources"].items| > 5 {
      return Raise(BadResources);
    }
    var items := f["resources"].items;
    var resources: seq<MachineRecord> := [];
    for index := 0 to |items|
      invariant ReadRecords(items[..index]) == Some(resources)
    {
      var record := ReadRecord(items[index]);
      assert items[..index + 1][..index] == items[..index];
      if record.None? {
        UnreadableRecord(items, index);
        return Raise(RecordError(items[index]));
      }
      resources := resources + [record.value];
    }
    assert items[..|items|] == items;
    if RepeatsIdentity(resources) {
      return Raise(RepeatedIdentity);
    }
    var peer: Option<string> := None;
    if f["bootstrap_peer"] != JNull {
      if !f["bootstrap_peer"].JStr? || !ValidBootstrapPeer(Some(f["bootstrap_peer"].s)) {
        return Raise(BadBootstrapPeer);
      }
      peer := Some(f["bootstrap_peer"].s);
    }
    if requireReady && (|resources| != 5 || Elements(ResourceIds(resources)) != RESOURCES) {
      return Raise(NotFiveResources);
    }
    if requireReady && (BootstrapCount(resources) != 1 || peer.None?) {
      return Raise(NotOneBootstrap);
    }
    result := Ok(ProviderState(f["run_id"].s, f["app"].s, f["status"].s, resources, peer));
  }

  /** One unreadable record makes the whole list unreadable, and the first one says why. */
  lemma {:induction false} UnreadableRecord(items: seq<Json>, index: nat)
    requires index < |items| && ReadRecord(items[index]).None? && ReadRecords(items[..index]).Some?
    ensures ReadRecords(items).None? && RecordsError(items) == RecordError(items[index])
  {
    if index < |items| - 1 {
      assert items[..|items| - 1][..index] == items[..index];
      UnreadableRecord(items[..|items| - 1], index);
    }
  }

  // ----- Reader and writer are inverse -----

  lemma {:induction false} ReadSpansElementwise(items: seq<Json>, spans: seq<(int, int)>)
    ensures ReadSpans(items) == Some(spans) <==>
            |items| == |spans| && forall i :: 0 <= i < |items| ==> ReadSpan(items[i]) == Some(spans[i])
  {
    if items != [] && spans != [] {
      ReadSpansElementwise(items[1..], spans[1..]);
      assert spans == [spans[0]] + spans[1..];
      if |items| == |spans| {
        assert forall i :: 1 <= i < |items| ==> items[i] == items[1..][i - 1] && spans[i] == spans[1..][i - 1];
      }
    }
  }

  lemma {:induction false} ReadRecordsElementwise(items: seq<Json>, records: seq<MachineRecord>)
    ensures ReadRecords(items) == Some(records) <==>
            |items| == |records| && forall i :: 0 <= i < |items| ==> ReadRecord(items[i]) == Some(records[i])
  {
    if items != [] && records != [] {
      var n, m := |items| - 1, |records| - 1;
      ReadRecordsElementwise(items[..n], records[..m]);
      assert records == records[..m] + [records[m]];
    }
  }

  /** A record survives the round trip exactly when it is valid; what is read is always written back the same. */
  lemma RecordRoundTrip(j: Json, r: MachineRecord)
    ensures ReadRecord(j) == Some(r) <==> j == RecordJson(r) && ValidRecord(r)
  {
    if j == RecordJson(r) && ValidRecord(r) {
      ReadSpansElementwise(j.fields["spans"].items, r.spans);
    }
    if ReadRecord(j) == Some(r) {
      var items := j.fields["spans"].items;
      ReadSpansElementwise(items, r.spans);
      forall i | 0 <= i < |items| ensures items[i] == SpanJson(r.spans[i]) {
        assert ReadSpan(items[i]) == Some(r.spans[i]);
        assert items[i].items == [items[i].items[0], items[i].items[1]];
      }
      assert items == RecordJson(r).fields["spans"].items;
      assert j.fields == RecordJson(r).fields;
    }
  }

  lemma {:induction false} RecordsRoundTrip(items: seq<Json>, rs: seq<MachineRecord>)
    ensures ReadRecords(items) == Some(rs) <==>
            && items == ResourcesJson(rs)
            && forall i :: 0 <= i < |rs| ==> ValidRecord(rs[i])
  {
    ReadRecordsElementwise(items, rs);
    if |items| == |rs| {
      forall i | 0 <= i < |items|
        ensures ReadRecord(items[i]) == Some(rs[i]) <==> items[i] == RecordJson(rs[i]) && ValidRecord(rs[i])
      {
        RecordRoundTrip(items[i], rs[i]);
      }
    }
  }

  lemma RepetitionCheckIsExact(rs: seq<MachineRecord>)
    ensures RepeatsIdentity(rs) <==> !DistinctIdentities(rs)
  {
    CountFindsRepetition(ResourceIds(rs));
    CountFindsRepetition(MachineLabels(rs));
    CountFindsRepetition(ProviderIds(rs));
    CountFindsRepetition(PeerIds(rs));
  }

  /** The fields f, one by one, are those the writer gives the state s. */
  predicate Carries(f: map<string, Json>, s: ProviderState) {
    && f.Keys == STATE_FIELDS
    && f["run_id"] == JStr(s.runId) && f["app"] == JStr(s.app) && f["status"] == JStr(s.status)
    && f["resources"] == JArr(ResourcesJson(s.resources)) && f["bootstrap_peer"] == PeerJson(s.bootstrapPeer)
  }

  lemma WriterCarries(f: map<string, Json>, s: ProviderState)
    ensures Carries(f, s) && f["schema_version"] == JInt(1) <==> JObj(f) == StateJson(s)
  {
    var g := StateJson(s).fields;
    assert g.Keys == STATE_FIELDS;
    assert Carries(g, s) && g["schema_version"] == JInt(1);
    if Carries(f, s) && f["schema_version"] == JInt(1) {
      assert f == g;
    }
  }

  lemma ReadIsCarriedAndValid(f: map<string, Json>, s: ProviderState, requireReady: bool)
    requires ReadState(JObj(f), requireReady) == Ok(s)
    ensures Carries(f, s) && EqualsOne(f["schema_version"])
    ensures ValidState(s) && (requireReady ==> BindsFiveResources(s))
  {
    RecordsRoundTrip(f["resources"].items, s.resources);
    RepetitionCheckIsExact(s.resources);
  }

  lemma CarriedAndValidIsRead(f: map<string, Json>, s: ProviderState, requireReady: bool)
    requires Carries(f, s) && EqualsOne(f["schema_version"])
    requires ValidState(s) && (requireReady ==> BindsFiveResources(s))
    ensures ReadState(JObj(f), requireReady) == Ok(s)
  {
    RecordsRoundTrip(f["resources"].items, s.resources);
    RepetitionCheckIsExact(s.resources);
    CarriedIsRead(f, s);
  }

  lemma CarriedIsRead(f: map<string, Json>, s: ProviderState)
    requires Carries(f, s) && EqualsOne(f["schema_version"])
    requires ValidLabel(s.runId) && ValidApp(s.app) && s.status in STATUSES && ValidBootstrapPeer(s.bootstrapPeer)
    requires |s.resources| <= 5 && !RepeatsIdentity(s.resources)
    requires ReadRecords(f["resources"].items) == Some(s.resources)
    ensures ReadState(JObj(f), false) == Ok(s)
  {
    assert f["resources"].JArr? && |f["resources"].items| == |s.resources|;
    assert !IsUnhashable(f["status"]) && f["status"].JStr?;
    var peer := if f["bootstrap_peer"] == JNull then None else Some(f["bootstrap_peer"].s);
    assert peer == s.bootstrapPeer;
    assert ProviderState(f["run_id"].s, f["app"].s, f["status"].s, s.resources, peer) == s;
  }

  /** What the writer writes, the reader accepts as the same state exactly when the state is valid
      (and, where readiness is required, binds its five resources). */
  lemma WrittenStateIsReadBack(s: ProviderState, requireReady: bool)
    ensures ReadState(StateJson(s), requireReady) == Ok(s) <==>
            ValidState(s) && (requireReady ==> BindsFiveResources(s))
  {
    var f := StateJson(s).fields;
    WriterCarries(f, s);
    if ReadState(JObj(f), requireReady) == Ok(s) {
      ReadIsCarriedAndValid(f, s, requireReady);
    }
    if ValidState(s) && (requireReady ==> BindsFiveResources(s)) {
      CarriedAndValidIsRead(f, s, requireReady);
    }
  }

  /** Whatever the reader accepts is a valid state. */
  lemma AcceptedStateIsValid(raw: Json, requireReady: bool)
    requires ReadState(raw, requireReady).Ok?
    ensures ValidState(ReadState(raw, requireReady).value)
    ensures requireReady ==> BindsFiveResources(ReadState(raw, requireReady).value)
  {
    ReadIsCarriedAndValid(raw.fields, ReadState(raw, requireReady).value, requireReady);
  }

  /** Writing back an accepted journal reproduces it, except that a schema version of true or 1.0,
      which Python finds equal to 1, comes back as 1. */
  lemma AcceptedJournalIsRewritten(raw: Json, requireReady: bool)
    requires ReadState(raw, requireReady).Ok?
    ensures StateJson(ReadState(raw, requireReady).value) == JObj(raw.fields["schema_version" := JInt(1)])
    ensures StateJson(ReadState(raw, requireReady).value) == raw <==> raw.fields["schema_version"] == JInt(1)
  {
    var s := ReadState(raw, requireReady).value;
    var g := raw.fields["schema_version" := JInt(1)];
    ReadIsCarriedAndValid(raw.fields, s, requireReady);
    assert Carries(g, s);
    WriterCarries(g, s);
    WriterCarries(raw.fields, s);
  }

  /** The exception is real: the reader takes a journal whose schema version is the boolean true. */
  lemma BooleanSchemaVersionIsAccepted()
    ensures exists raw :: ReadState(raw, false).Ok? && StateJson(ReadState(raw, false).value) != raw
  {
    var s := ProviderState("r", "a", "provisioning", [], None);
    var written := StateJson(s).fields;
    var f := written["schema_version" := JBool(true)];
    WriterCarries(written, s);
    assert Carries(f, s);
    CarriedAndValidIsRead(f, s, false);
    WriterCarries(f, s);
    assert ReadState(JObj(f), false) == Ok(s) && StateJson(s) != JObj(f);
  }
}
