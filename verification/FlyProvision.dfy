/** provision: create five machines one by one, journaling each, with an outer trap that cleans up
    after any failure. */
module FlyProvision {
  import opened Prelude
  import opened FlyJournal
  import opened FlyProvider
  import opened FlyCleanup
  import opened FlyHistory
  import opened Text

  // ----- Block layout and topology -----

  /** _RESOURCE_LAYOUT: resource, machine label, role. */
  const LAYOUT: seq<(string, string, string)> := [
    ("bootstrap-a", "bootstrap-a", "bootstrap"),
    ("worker-a", "host-a", "worker"),
    ("worker-b", "host-b", "worker"),
    ("worker-c", "host-c", "worker"),
    ("worker-d", "host-d", "worker")]

  /** The spans of the machine at this place in the layout. */
  function LayoutSpans(index: nat, blocks: nat): seq<(int, int)> {
    var split := blocks / 2;
    if index == 0 then []
    else if index % 2 == 1 then [(0, split)]
    else [(split, blocks)]
  }

  /** How many of the spans hold this block. */
  function CoverCount(spans: seq<(int, int)>, block: int): nat {
    if spans == [] then 0
    else (if spans[0].0 <= block < spans[0].1 then 1 else 0) + CoverCount(spans[1..], block)
  }

  /** Every block of the model lies in exactly one span, and no span reaches outside the model. */
  ghost predicate Tiles(spans: seq<(int, int)>, blocks: nat) {
    forall b :: CoverCount(spans, b) == if 0 <= b < blocks then 1 else 0
  }

  /** The worker bound to a resource, if the state has one. */
  function Worker(records: seq<MachineRecord>, resourceId: string): Option<MachineRecord> {
    if records == [] then None
    else if records[|records| - 1].role == "worker" && records[|records| - 1].resourceId == resourceId
    then Some(records[|records| - 1])
    else Worker(records[..|records| - 1], resourceId)
  }

  datatype Topology = Topology(runId: string, bootstrapPeer: Option<string>,
                               routeA: (MachineRecord, MachineRecord), routeB: (MachineRecord, MachineRecord))

  /** _topology; None stands for the KeyError of a missing worker. */
  function TopologyOf(s: ProviderState): Option<Topology> {
    var a, b := Worker(s.resources, "worker-a"), Worker(s.resources, "worker-b");
    var c, d := Worker(s.resources, "worker-c"), Worker(s.resources, "worker-d");
    if a.Some? && b.Some? && c.Some? && d.Some?
    then Some(Topology(s.runId, s.bootstrapPeer, (a.value, b.value), (c.value, d.value)))
    else None
  }

  ghost predicate RoutesTile(t: Topology, blocks: nat) {
    && Tiles(t.routeA.0.spans + t.routeA.1.spans, blocks)
    && Tiles(t.routeB.0.spans + t.routeB.1.spans, blocks)
  }

  // ----- The private files -----

  /** Atomic writes: a failed one leaves the old file, or, when the interruption came after the
      replacement, the new one. */
  datatype Outcome = Succeeds | FailsBefore | FailsAfter

  class Disk {
    const outcomes: seq<Outcome>
    var used: nat           // how many calls have been made
    var written: seq<Json>  // the journals it was given to write, in order
    var state: Option<Json>
    var topology: Option<Topology>
    var control: bool

    constructor (outcomes: seq<Outcome>)
      ensures this.outcomes == outcomes && used == 0 && written == []
      ensures state == None && topology == None && !control
    {
      this.outcomes, used, written, state, topology, control := outcomes, 0, [], None, None, false;
    }

    /** How the i-th call goes. */
    function At(i: nat): Outcome {
      if i < |outcomes| then outcomes[i] else FailsBefore
    }

    function Coming(): Outcome
      reads this`used
    {
      At(used)
    }

    /** A call has failed. */
    predicate HasFailed()
      reads this`used
    {
      exists i | 0 <= i < used :: At(i) != Succeeds
    }

    method Next() returns (outcome: Outcome)
      modifies this`used
      ensures outcome == old(Coming()) && used == old(used) + 1 && (outcome != Succeeds ==> HasFailed())
    {
      outcome := Coming();
      used := used + 1;
    }

    method WriteState(value: Json) returns (ok: bool)
      modifies this`used, this`written, this`state
      ensures written == old(written) + [value]
      ensures ok <==> old(Coming()) == Succeeds
      ensures used == old(used) + 1 && (!ok ==> HasFailed())
      ensures state == if old(Coming()) == FailsBefore then old(state) else Some(value)
    {
      written := written + [value];
      var outcome := Next();
      if outcome != FailsBefore {
        state := Some(value);
      }
      ok := outcome == Succeeds;
    }

    method ReadStateFile() returns (r: Option<Json>)
      modifies this`used
      ensures r == if old(Coming()) == Succeeds then state else None
      ensures used == old(used) + 1 && (r.None? && state.Some? ==> HasFailed())
    {
      var outcome := Next();
      r := if outcome == Succeeds then state else None;
    }

    method WriteTopology(value: Topology) returns (ok: bool)
      modifies this`used, this`topology
      ensures ok <==> old(Coming()) == Succeeds
      ensures used == old(used) + 1 && (!ok ==> HasFailed())
      ensures topology == if old(Coming()) == FailsBefore then old(topology) else Some(value)
    {
      var outcome := Next();
      if outcome != FailsBefore {
        topology := Some(value);
      }
      ok := outcome == Succeeds;
    }

    method WriteControl() returns (ok: bool)
      modifies this`used, this`control
      ensures ok <==> old(Coming()) == Succeeds
      ensures used == old(used) + 1 && (!ok ==> HasFailed())
      ensures control == (old(control) || old(Coming()) != FailsBefore)
    {
      var outcome := Next();
      if outcome != FailsBefore {
        control := true;
      }
      ok := outcome == Succeeds;
    }
  }

  // ----- Provisioning -----

  datatype Options = Options(runId: string, app: string, device: string, port: nat, blocks: nat, timeout: nat,
                             identityTimeout: nat, identityInterval: nat, interval: int, sharedDirectory: bool)

  datatype ProvisionError =
    | ApiFailed | NotStarted | PeerUnreadable | NoPrivateIp | RepeatedMachine | RepeatedPeer
    | WriteFailed | ReadFailed | Unreadable(error: JournalError)

  /** How a call of provision ends. */
  datatype Ending =
    | Refused
    | Ready(state: ProviderState)
    | Reraised(error: ProvisionError)
    | CleanupUnproved(error: ProvisionError)

  /** The record at this place of the layout is as the layout demands. */
  predicate LaidOut(r: MachineRecord, index: nat, blocks: nat)
    requires index < 5
  {
    && r.resourceId == LAYOUT[index].0 && r.machineLabel == LAYOUT[index].1 && r.role == LAYOUT[index].2
    && r.spans == LayoutSpans(index, blocks)
    && ValidProviderId(r.providerMachineId) && ValidPeerId(r.peerId)
  }

  /** The records are the first so many places of the layout, without a repeated machine or PeerID. */
  ghost predicate Progress(records: seq<MachineRecord>, blocks: nat) {
    && |records| <= 5
    && (forall i :: 0 <= i < |records| ==> LaidOut(records[i], i, blocks))
    && Distinct(ProviderIds(records)) && Distinct(PeerIds(records))
  }

  // ----- The bootstrap's address -----

  /** _private_ip, of an address in compressed form: the 6PN network begins with fdaa. */
  function PrivateIp(value: Option<string>): Option<string> {
    if value.Some? && "fdaa:" <= value.value && IsAddressText(value.value) then value else None
  }

  predicate IsAddressText(s: string) {
    forall i :: 0 <= i < |s| ==> IsDigit(s[i]) || 'a' <= s[i] <= 'f' || s[i] == ':'
  }

  /** The three parts of a multiaddress with a port and a PeerID. */
  function ReadAddress(address: string): Option<(string, nat, string)> {
    var parts := Split(address, IsSlash);
    if |parts| == 7 && parts[0] == "" && parts[1] == "ip6" && parts[3] == "tcp" && AllDigits(parts[4]) &&
       parts[5] == "p2p"
    then Some((parts[2], Number(parts[4]), parts[6]))
    else None
  }

  /** A multiaddress is its parts with slashes between them. */
  lemma AddressIsJoined(a: string, ip: string, b: string, port: string, c: string, peer: string)
    ensures (['/'] + a + ['/']) + ip + (['/'] + b + ['/']) + port + (['/'] + c + ['/']) + peer ==
            Join(["", a, ip, b, port, c, peer])
  {
    assert Join([c, peer]) == c + ['/'] + peer;
    assert Join([port, c, peer]) == port + ['/'] + Join([c, peer]);
    assert Join([b, port, c, peer]) == b + ['/'] + Join([port, c, peer]);
    assert Join([ip, b, port, c, peer]) == ip + ['/'] + Join([b, port, c, peer]);
    assert Join([a, ip, b, port, c, peer]) == a + ['/'] + Join([ip, b, port, c, peer]);
    assert Join(["", a, ip, b, port, c, peer]) == "" + ['/'] + Join([a, ip, b, port, c, peer]);
  }

  lemma AddressIsRead(ip: string, port: nat, peer: string)
    requires Free(ip, IsSlash) && Free(peer, IsSlash)
    ensures ReadAddress("/ip6/" + ip + "/tcp/" + Print(port) + "/p2p/" + peer) == Some((ip, port, peer))
  {
    NumberOfPrint(port);
    assert "/ip6/" == ['/'] + "ip6" + ['/'] && "/tcp/" == ['/'] + "tcp" + ['/'] && "/p2p/" == ['/'] + "p2p" + ['/'];
    AddressIsJoined("ip6", ip, "tcp", Print(port), "p2p", peer);
    SplitOfJoin(["", "ip6", ip, "tcp", Print(port), "p2p", peer]);
  }

  // ----- What the log shows of a creation -----

  /** What the request for a recorded machine says: the run and resource it is tagged with, its role, and for a worker
      the peer it first dials and its span. */
  function OrderFor(r: MachineRecord, runId: string, peer: Option<string>): Order {
    var worker := r.role == "worker";
    Order(runId, r.resourceId, r.role, if worker then peer else None,
          if worker && |r.spans| == 1 then Some(r.spans[0]) else None)
  }

  /** The log of one recorded machine: ordered as recorded, made, started, and identified. */
  predicate Creation(log: seq<Event>, r: MachineRecord, runId: string, peer: Option<string>) {
    && |log| == 4
    && log[0] == CreateCalled(OrderFor(r, runId, peer))
    && log[1].MachineMade? && log[1].id == r.providerMachineId
    && log[2] == StartDone(r.providerMachineId)
    && log[3] == Identified(r.providerMachineId, r.peerId)
  }

  /** The log of all recorded machines, in order. */
  predicate Creations(log: seq<Event>, records: seq<MachineRecord>, runId: string, peer: Option<string>) {
    && |log| == 4 * |records|
    && forall i {:trigger Part(log, i)} :: 0 <= i < |records| ==> Creation(Part(log, i), records[i], runId, peer)
  }

  /** The part of the log that is about the i-th machine. */
  function Part(log: seq<Event>, i: nat): seq<Event> {
    if 4 * i + 4 <= |log| then log[4 * i..4 * i + 4] else []
  }

  /** The address the workers dial is the first machine's: the private address the provider gave it, the run's port, and
      its PeerID. */
  predicate Dials(peer: Option<string>, log: seq<Event>, records: seq<MachineRecord>, port: nat) {
    records != [] ==>
      && |log| >= 2 && log[1].MachineMade? && PrivateIp(log[1].privateIp).Some?
      && peer.Some? && ReadAddress(peer.value) == Some((log[1].privateIp.value, port, records[0].peerId))
  }

  /** What a creation that came to no record leaves in the log: nothing, or one request for the next place and what
      followed it. */
  predicate Unfinished(log: seq<Event>, index: nat, runId: string) {
    log == [] ||
    (&& index < 5 && log[0].CreateCalled? && log[0].order.runId == runId && log[0].order.resourceId == LAYOUT[index].0
     && forall i :: 1 <= i < |log| ==> log[i].MachineMade? || log[i].StartDone? || log[i].Identified?)
  }

  /** How far the creation of one machine went says why it came to no record. */
  ghost predicate Blamed(error: ProvisionError, log: seq<Event>, records: seq<MachineRecord>) {
    match |log|
    case 1 => error == ApiFailed
    case 2 => error == NotStarted
    case 3 => error == PeerUnreadable
    case 4 =>
      && log[1].MachineMade? && log[3].Identified?
      && if records == [] && PrivateIp(log[1].privateIp).None? then error == NoPrivateIp
         else if log[1].id in ProviderIds(records) then error == RepeatedMachine
         else error == RepeatedPeer && log[3].peerId in PeerIds(records)
    case _ => false
  }

  /** The account of a provisioning that has begun to create: the records and the bootstrap's address, what the records
      show of the log, and what came to no record. */
  datatype Account = Account(records: seq<MachineRecord>, peer: Option<string>, made: seq<Event>, rest: seq<Event>)

  /** The account agrees with the log: the records are the first so many places of the layout, each was ordered as
      recorded, made, started and identified under its own machine, in order; the workers were told the first machine's
      own address; and at most one more machine was asked for. */
  ghost predicate Accounted(a: Account, options: Options) {
    && Progress(a.records, options.blocks)
    && Creations(a.made, a.records, options.runId, a.peer)
    && Dials(a.peer, a.made, a.records, options.port)
    && Unfinished(a.rest, |a.records|, options.runId)
  }

  /** The journal's reader takes the state, when readiness is asked. */
  ghost predicate Readable(s: ProviderState) {
    ValidState(s) && BindsFiveResources(s)
  }

  /** Why an account went no further: the unfinished creation says so; without one, a file could not be written, or
      the five records could not be read back. */
  ghost predicate Explained(error: ProvisionError, a: Account, options: Options, diskFailed: bool) {
    match error
    case WriteFailed => a.rest == [] && diskFailed
    case ReadFailed => a.rest == [] && |a.records| == 5 && diskFailed
    case Unreadable(_) =>
      && a.rest == [] && |a.records| == 5
      && !Readable(ProviderState(options.runId, options.app, "ready", a.records, a.peer))
    case _ => a.rest != [] && Blamed(error, a.rest, a.records)
  }

  /** The journals written as the records come in. */
  function Journals(options: Options, records: seq<MachineRecord>, peer: Option<string>): seq<Json> {
    if records == [] then []
    else
      Journals(options, records[..|records| - 1], peer) +
      [StateJson(ProviderState(options.runId, options.app, "provisioning", records, peer))]
  }

  lemma CreationsGrow(log: seq<Event>, records: seq<MachineRecord>, more: seq<Event>, r: MachineRecord, runId: string,
                      peer: Option<string>)
    requires Creations(log, records, runId, peer) && Creation(more, r, runId, peer)
    ensures Creations(log + more, records + [r], runId, peer)
  {
    forall i | 0 <= i <= |records| ensures Creation(Part(log + more, i), (records + [r])[i], runId, peer) {
      assert Part(log + more, i) == if i < |records| then Part(log, i) else more;
    }
  }

  /** One more record, with the log of its creation.  Only the first may come with a new address. */
  lemma OneMoreAccounted(
      a: Account, records: seq<MachineRecord>, log: seq<Event>, peer: Option<string>, options: Options)
    requires Accounted(a, options) && a.rest == [] && Progress(records, options.blocks)
    requires |records| == |a.records| + 1 && records[..|a.records|] == a.records
    requires Creation(log, records[|a.records|], options.runId, peer)
    requires if a.records == [] then Dials(peer, log, records, options.port) else peer == a.peer
    ensures Accounted(Account(records, peer, a.made + log, []), options)
    ensures Journals(options, records, peer) ==
            Journals(options, a.records, a.peer) +
            [StateJson(ProviderState(options.runId, options.app, "provisioning", records, peer))]
  {
    assert records == a.records + [records[|a.records|]];
    CreationsGrow(a.made, a.records, log, records[|a.records|], options.runId, peer);
    if a.records == [] {
      assert a.made + log == log;
    } else {
      assert (a.made + log)[1] == a.made[1];
    }
  }

  /** No more record, with what its creation left in the log. */
  lemma UnfinishedAccounted(a: Account, log: seq<Event>, peer: Option<string>, options: Options)
    requires Accounted(a, options) && a.rest == [] && Unfinished(log, |a.records|, options.runId)
    requires a.records != [] ==> peer == a.peer
    ensures Accounted(Account(a.records, peer, a.made, log), options)
    ensures a.records == [] ==> Journals(options, a.records, peer) == Journals(options, a.records, a.peer)
  {
  }

  /** The account after one more place of the layout, whichever way it went. */
  lemma NextAccounted(a: Account, records: seq<MachineRecord>, log: seq<Event>, peer: Option<string>, options: Options)
    returns (b: Account)
    requires Accounted(a, options) && a.rest == [] && Progress(records, options.blocks)
    requires if records == a.records
             then Unfinished(log, |a.records|, options.runId) && (a.records != [] ==> peer == a.peer)
             else |records| == |a.records| + 1 && records[..|a.records|] == a.records &&
                  Creation(log, records[|a.records|], options.runId, peer) &&
                  if a.records == [] then Dials(peer, log, records, options.port) else peer == a.peer
    ensures Accounted(b, options) && b.records == records && b.peer == peer
    ensures b.rest == (if records == a.records then log else []) && b.made + b.rest == a.made + log
    ensures Journals(options, records, peer) ==
            Journals(options, a.records, a.peer) + if records == a.records then []
              else [StateJson(ProviderState(options.runId, options.app, "provisioning", records, peer))]
  {
    if records == a.records {
      UnfinishedAccounted(a, log, peer, options);
      b := Account(records, peer, a.made, log);
    } else {
      OneMoreAccounted(a, records, log, peer, options);
      b := Account(records, peer, a.made + log, []);
    }
  }

  ghost predicate UnprovedOrUnwritten(api: FlyAPI, disk: Disk, options: Options, cleanup: seq<Event>,
                                      records: seq<MachineRecord>, since: nat)
    reads api`asked, api`now, disk`used
  {
    || (Destroyed(cleanup, options.runId, records) && disk.HasFailed())
    || exists error, from: nat :: since <= from &&
         Unproved(api, error, cleanup, options.runId, records, from, options.timeout, options.interval)
  }

  class Provisioning {
    const api: FlyAPI
    const disk: Disk
    const options: Options
    var records: seq<MachineRecord>
    var bootstrapPeer: Option<string>

    constructor (api: FlyAPI, disk: Disk, options: Options)
      ensures this.api == api && this.disk == disk && this.options == options
      ensures records == [] && bootstrapPeer == None
    {
      this.api, this.disk, this.options, records, bootstrapPeer := api, disk, options, [], None;
    }

    function StateWith(status: string): ProviderState
      reads this
    {
      ProviderState(options.runId, options.app, status, records, bootstrapPeer)
    }

    /** The address of the bootstrap, from the create result and the PeerID. */
    method SetBootstrap(privateIp: Option<string>, peerId: string) returns (ok: bool)
      requires ValidPeerId(peerId)
      modifies this`bootstrapPeer
      ensures ok <==> PrivateIp(privateIp).Some?
      ensures ok ==> bootstrapPeer.Some?
      ensures ok ==> ReadAddress(bootstrapPeer.value) == Some((privateIp.value, options.port, peerId))
    {
      var ip := PrivateIp(privateIp);
      if ip.None? {
        return false;
      }
      assert Free(peerId, IsSlash) && Free(ip.value, IsSlash);
      AddressIsRead(ip.value, options.port, peerId);
      bootstrapPeer := Some("/ip6/" + ip.value + "/tcp/" + Print(options.port) + "/p2p/" + peerId);
      ok := true;
    }

    /** Ask for the machine at the next place of the layout, and await its start. */
    method Begin(index: nat) returns (r: Result<(string, Option<string>), ProvisionError>, ghost log: seq<Event>)
      requires index < 5 && (index > 0 ==> bootstrapPeer.Some?)
      modifies api`asked, api`ticks, api`now
      ensures api.History() == old(api.History()) + log && api.now >= old(api.now)
      ensures r.Raise? ==> if r.error == ApiFailed then log == [CreateCalled(OrderAt(index))]
                           else r.error == NotStarted && |log| == 2 &&
                                log[0] == CreateCalled(OrderAt(index)) && log[1].MachineMade?
      ensures r.Ok? ==>
                && ValidProviderId(r.value.0)
                && log == [CreateCalled(OrderAt(index)), MachineMade(r.value.0, r.value.1), StartDone(r.value.0)]
    {
      var created := api.CreateMachine(OrderAt(index));
      log := [CreateCalled(OrderAt(index))];
      if created.Raise? {
        return Raise(ApiFailed), log;
      }
      var (providerId, privateIp) := created.value;
      log := log + [MachineMade(providerId, privateIp)];
      var started;
      ghost var begun, last;
      started, begun, last := api.WaitState(providerId, Started, options.timeout);
      if !started {
        return Raise(NotStarted), log;
      }
      log := log + [StartDone(providerId)];
      r := Ok((providerId, privateIp));
    }

    /** The same, and read its PeerID. */
    method Launch(index: nat)
      returns (r: Result<(string, Option<string>, string), ProvisionError>, ghost log: seq<Event>)
      requires index < 5 && (index > 0 ==> bootstrapPeer.Some?)
      modifies api`asked, api`ticks, api`now
      ensures api.History() == old(api.History()) + log && api.now >= old(api.now)
      ensures r.Raise? ==> Unfinished(log, index, options.runId) && 1 <= |log| <= 3
      ensures r.Raise? ==> r.error == match |log| case 1 => ApiFailed case 2 => NotStarted case _ => PeerUnreadable
      ensures r.Ok? ==> ValidProviderId(r.value.0) && ValidPeerId(r.value.2)
      ensures r.Ok? ==> log == LaunchLog(index, r.value.0, r.value.1, r.value.2)
    {
      var begun;
      begun, log := Begin(index);
      if begun.Raise? {
        return Raise(begun.error), log;
      }
      var (providerId, privateIp) := begun.value;
      var peer := api.ReadPeerId(providerId, options.identityTimeout, options.identityInterval);
      if peer.None? {
        return Raise(PeerUnreadable), log;
      }
      log := log + [Identified(providerId, peer.value)];
      OrderIsRecorded(index, providerId, peer.value);
      r := Ok((providerId, privateIp, peer.value));
    }

    /** The request for the machine at this place of the layout. */
    function OrderAt(index: nat): Order
      requires index < 5
      reads this`bootstrapPeer
    {
      var (resource, _, role) := LAYOUT[index];
      if index == 0 then Order(options.runId, resource, role, None, None)
      else Order(options.runId, resource, role, bootstrapPeer, Some(LayoutSpans(index, options.blocks)[0]))
    }

    /** What is asked for is what will be recorded. */
    lemma OrderIsRecorded(index: nat, providerId: string, peerId: string)
      requires index < 5
      ensures OrderAt(index) == OrderFor(RecordAt(index, providerId, peerId), options.runId, bootstrapPeer)
    {
    }

    /** The log of a machine at this place of the layout, launched. */
    ghost function LaunchLog(index: nat, providerId: string, privateIp: Option<string>, peerId: string): seq<Event>
      requires index < 5
      reads this`bootstrapPeer
    {
      [CreateCalled(OrderFor(RecordAt(index, providerId, peerId), options.runId, bootstrapPeer)),
       MachineMade(providerId, privateIp), StartDone(providerId), Identified(providerId, peerId)]
    }

    /** The record of the machine at this place of the layout. */
    function RecordAt(index: nat, providerId: string, peerId: string): MachineRecord
      requires index < 5
    {
      MachineRecord(LAYOUT[index].0, LAYOUT[index].1, providerId, LAYOUT[index].2, peerId,
                    LayoutSpans(index, options.blocks))
    }

    /** Create, await and identify the machine at the next place of the layout, then journal it. */
    method CreateNext(index: nat) returns (error: Option<ProvisionError>, ghost log: seq<Event>)
      requires index < 5 && |records| == index && Progress(records, options.blocks)
      requires index > 0 ==> bootstrapPeer.Some?
      modifies this, api`asked, api`ticks, api`now, disk`used, disk`written, disk`state
      ensures api.History() == old(api.History()) + log && api.now >= old(api.now)
      ensures Progress(records, options.blocks) && old(records) <= records
      ensures error.None? || error == Some(WriteFailed) ==>
                && |records| == index + 1 && Creation(log, records[index], options.runId, bootstrapPeer)
                && (if index == 0 then Dials(bootstrapPeer, log, records, options.port)
                    else bootstrapPeer == old(bootstrapPeer))
                && disk.written == old(disk.written) + [StateJson(StateWith("provisioning"))]
      ensures error.None? ==> disk.state == Some(StateJson(StateWith("provisioning")))
      ensures error == Some(WriteFailed) ==> disk.HasFailed()
      ensures error.Some? && error.value != WriteFailed ==>
                && records == old(records) && Unfinished(log, index, options.runId)
                && Blamed(error.value, log, records) && (index > 0 ==> bootstrapPeer == old(bootstrapPeer))
                && disk.written == old(disk.written)
    {
      var launched;
      launched, log := Launch(index);
      if launched.Raise? {
        return Some(launched.error), log;
      }
      var (providerId, privateIp, peerId) := launched.value;
      if index == 0 {
        var ok := SetBootstrap(privateIp, peerId);
        if !ok {
          return Some(NoPrivateIp), log;
        }
      }
      if providerId in ProviderIds(records) {
        return Some(RepeatedMachine), log;
      }
      if peerId in PeerIds(records) {
        return Some(RepeatedPeer), log;
      }
      var written := Enlist(index, providerId, peerId);
      error := if written then None else Some(WriteFailed);
    }

    /** One more record, journaled. */
    method Enlist(index: nat, providerId: string, peerId: string) returns (written: bool)
      requires index < 5 && |records| == index && Progress(records, options.blocks)
      requires ValidProviderId(providerId) && ValidPeerId(peerId)
      requires providerId !in ProviderIds(records) && peerId !in PeerIds(records)
      modifies this`records, disk`used, disk`written, disk`state
      ensures records == old(records) + [RecordAt(index, providerId, peerId)] && Progress(records, options.blocks)
      ensures disk.written == old(disk.written) + [StateJson(StateWith("provisioning"))]
      ensures if written then disk.state == Some(StateJson(StateWith("provisioning"))) else disk.HasFailed()
    {
      ghost var before := records;
      records := records + [RecordAt(index, providerId, peerId)];
      assert ProviderIds(records) == ProviderIds(before) + [providerId];
      assert PeerIds(records) == PeerIds(before) + [peerId];
      written := disk.WriteState(StateJson(StateWith("provisioning")));
    }

    /** The account so far. */
    ghost function So(made: seq<Event>, rest: seq<Event>): Account
      reads this`records, this`bootstrapPeer
    {
      Account(records, bootstrapPeer, made, rest)
    }

    /** The guarded part: everything inside the outer try.  Whatever fails, at most the last machine
        asked for is missing from the records. */
    method Attempt() returns (r: Result<ProviderState, ProvisionError>, ghost made: seq<Event>, ghost rest: seq<Event>)
      requires records == [] && bootstrapPeer == None && options.blocks >= 2
      modifies this, api`asked, api`ticks, api`now, disk
      ensures api.History() == old(api.History()) + made + rest && api.now >= old(api.now)
      ensures Accounted(So(made, rest), options)
      ensures old(disk.written) + Journals(options, records, bootstrapPeer) <= disk.written
      ensures r.Ok? ==> rest == [] && Published(r.value)
      ensures r.Raise? ==> Explained(r.error, So(made, rest), options, disk.HasFailed())
      ensures r.Ok? ==>
                disk.written == old(disk.written) + Journals(options, records, bootstrapPeer) + [StateJson(r.value)]
    {
      var error;
      error, made, rest := CreateAll();
      if error.Some? {
        return Raise(error.value), made, rest;
      }
      r := Publish();
    }

    /** The five machines, one after the other, each journaled before the next is asked for. */
    method CreateAll() returns (error: Option<ProvisionError>, ghost made: seq<Event>, ghost rest: seq<Event>)
      requires records == [] && bootstrapPeer == None
      modifies this, api`asked, api`ticks, api`now, disk`used, disk`written, disk`state
      ensures api.History() == old(api.History()) + made + rest && api.now >= old(api.now)
      ensures Accounted(So(made, rest), options)
      ensures disk.written == old(disk.written) + Journals(options, records, bootstrapPeer)
      ensures error.None? ==> rest == [] && |records| == 5 && bootstrapPeer.Some?
      ensures error.Some? ==> Explained(error.value, So(made, rest), options, disk.HasFailed())
    {
      made, rest := [], [];
      for index := 0 to 5
        invariant api.History() == old(api.History()) + made && rest == [] && api.now >= old(api.now)
        invariant |records| == index && Accounted(So(made, rest), options)
        invariant disk.written == old(disk.written) + Journals(options, records, bootstrapPeer)
        invariant index > 0 ==> bootstrapPeer.Some?
      {
        error, made, rest := Extend(index, old(api.History()), old(disk.written), made);
        if error.Some? {
          return;
        }
      }
      error := None;
    }

    /** One more machine, and what becomes of the account. */
    method Extend(index: nat, ghost start: seq<Event>, ghost journals: seq<Json>, ghost before: seq<Event>)
      returns (error: Option<ProvisionError>, ghost made: seq<Event>, ghost rest: seq<Event>)
      requires index < 5 && |records| == index && Accounted(So(before, []), options)
      requires index > 0 ==> bootstrapPeer.Some?
      requires api.History() == start + before
      requires disk.written == journals + Journals(options, records, bootstrapPeer)
      modifies this, api`asked, api`ticks, api`now, disk`used, disk`written, disk`state
      ensures api.History() == start + made + rest && api.now >= old(api.now)
      ensures Accounted(So(made, rest), options)
      ensures disk.written == journals + Journals(options, records, bootstrapPeer)
      ensures error.None? ==> rest == [] && |records| == index + 1 && bootstrapPeer.Some?
      ensures error.Some? ==> Explained(error.value, So(made, rest), options, disk.HasFailed())
    {
      ghost var account, earlier := So(before, []), Journals(options, records, bootstrapPeer);
      ghost var log;
      error, log := CreateNext(index);
      account := NextAccounted(account, records, log, bootstrapPeer, options);
      made, rest := account.made, account.rest;
      Regrouped(start, before, log);
      Regrouped(start, made, rest);
      Regrouped(journals, earlier, [StateJson(StateWith("provisioning"))]);
    }

    /** The state is on disk, its own reader accepts it, and the two plan files are written. */
    ghost predicate Published(state: ProviderState)
      reads this, disk
    {
      && state == StateWith("ready") && |records| == 5
      && disk.state == Some(StateJson(state)) && ReadState(StateJson(state), true) == Ok(state)
      && disk.topology == TopologyOf(state) && disk.topology.Some? && disk.control
    }

    /** The journal marked ready, read back, and the two plan files. */
    method Publish() returns (r: Result<ProviderState, ProvisionError>)
      requires Progress(records, options.blocks) && |records| == 5 && bootstrapPeer.Some? && options.blocks >= 2
      modifies disk
      ensures disk.written == old(disk.written) + [StateJson(StateWith("ready"))]
      ensures r.Ok? ==> Published(r.value)
      ensures r.Raise? ==> Unpublished(r.error)
    {
      r := Record();
      if r.Ok? {
        LaidOutStateHasTopology(r.value, options.blocks);
        var topology := TopologyOf(r.value);
        var ok := WritePlans(topology.value);
        if !ok {
          return Raise(WriteFailed);
        }
      }
    }

    ghost predicate Unpublished(error: ProvisionError)
      reads this, disk`used
    {
      match error
      case WriteFailed => disk.HasFailed()
      case ReadFailed => disk.HasFailed()
      case Unreadable(_) => !Readable(StateWith("ready"))
      case _ => false
    }

    /** The journal, written and read back. */
    method Record() returns (r: Result<ProviderState, ProvisionError>)
      modifies disk`used, disk`written, disk`state
      ensures disk.written == old(disk.written) + [StateJson(StateWith("ready"))]
      ensures r.Ok? ==>
                && r.value == StateWith("ready") && disk.state == Some(StateJson(r.value))
                && ReadState(StateJson(r.value), true) == Ok(r.value)
      ensures r.Raise? ==> Unpublished(r.error)
    {
      var state := StateWith("ready");
      var written := disk.WriteState(StateJson(state));
      if !written {
        return Raise(WriteFailed);
      }
      var raw := disk.ReadStateFile();
      if raw.None? {
        return Raise(ReadFailed);
      }
      var loaded := LoadState(raw.value, true);
      if loaded.Raise? {
        RejectedIsUnreadable(state, loaded.error);
        return Raise(Unreadable(loaded.error));
      }
      WriterIsInjective(loaded.value, state, true);
      r := Ok(loaded.value);
    }

    method WritePlans(topology: Topology) returns (ok: bool)
      modifies disk`used, disk`topology, disk`control
      ensures ok ==> disk.topology == Some(topology) && disk.control
      ensures !ok ==> disk.HasFailed()
    {
      ok := disk.WriteTopology(topology);
      if ok {
        ok := disk.WriteControl();
      }
    }

    /** The outer trap after a failure: reconcile, then journal the cleaned state; the original error
        is raised again only when both worked. */
    method CleanUp(error: ProvisionError, ghost since: nat) returns (ending: Ending, ghost cleanup: seq<Event>)
      requires since <= api.now
      modifies api, disk
      ensures api.History() == old(api.History()) + cleanup && Entitled(cleanup, options.runId)
      ensures old(disk.written) <= disk.written && old(disk.used) <= disk.used
      ensures ending == Reraised(error) || ending == CleanupUnproved(error)
      ensures ending.CleanupUnproved? ==> NotProved(cleanup, since)
      ensures ending.Reraised? ==>
                && Destroyed(cleanup, options.runId, records)
                && disk.state == Some(StateJson(StateWith("cleaned_after_failure")))
    {
      var cleaned;
      cleaned, cleanup := CleanupRun(api, options.runId, records, options.timeout, options.interval);
      if cleaned.Raise? {
        assert Unproved(
            api, cleaned.error, cleanup, options.runId, records, old(api.now), options.timeout, options.interval);
        ending := CleanupUnproved(error);
        return;
      }
      var written := disk.WriteState(StateJson(StateWith("cleaned_after_failure")));
      ending := if written then Reraised(error) else CleanupUnproved(error);
    }

    /** The cleanup gave up, for a reason that shows, or proved everything destroyed and its journal was not written. */
    ghost predicate NotProved(cleanup: seq<Event>, since: nat)
      reads this`records, api`asked, api`now, disk`used
    {
      UnprovedOrUnwritten(api, disk, options, cleanup, records, since)
    }

    /** The try and its outer trap together. */
    method Guarded() returns (ending: Ending, ghost made: seq<Event>, ghost rest: seq<Event>, ghost cleanup: seq<Event>)
      requires records == [] && bootstrapPeer == None && options.blocks >= 2
      modifies this, api, disk
      ensures api.History() == old(api.History()) + made + rest + cleanup && Accounted(So(made, rest), options)
      ensures Entitled(cleanup, options.runId)
      ensures !ending.Refused?
      ensures ending.CleanupUnproved? ==> NotProved(cleanup, old(api.now))
      ensures !ending.Ready? ==> Explained(ending.error, So(made, rest), options, disk.HasFailed())
      ensures old(disk.written) + Journals(options, records, bootstrapPeer) <= disk.written
      ensures ending.Ready? ==>
                && rest == [] && cleanup == [] && Published(ending.state)
                && disk.written ==
                   old(disk.written) + Journals(options, records, bootstrapPeer) + [StateJson(ending.state)]
      ensures ending.Reraised? ==>
                && Destroyed(cleanup, options.runId, records)
                && disk.state == Some(StateJson(StateWith("cleaned_after_failure")))
    {
      var result;
      result, made, rest := Attempt();
      cleanup := [];
      if result.Ok? {
        ending := Ready(result.value);
        return;
      }
      ending, cleanup := CleanUp(result.error, old(api.now));
    }
  }

  /** What the reader refuses of a written state is not one it should take. */
  lemma RejectedIsUnreadable(s: ProviderState, why: JournalError)
    requires ReadState(StateJson(s), true) == Raise(why)
    ensures !Readable(s)
  {
    WrittenStateIsReadBack(s, true);
  }

  /** A journal has only one reading. */
  lemma WriterIsInjective(read: ProviderState, s: ProviderState, requireReady: bool)
    requires ReadState(StateJson(s), requireReady) == Ok(read)
    ensures read == s
  {
    var f := StateJson(s).fields;
    WriterCarries(f, s);
    ReadIsCarriedAndValid(f, read, requireReady);
    CarriedIsOne(f, read, s);
  }

  lemma CarriedIsOne(f: map<string, Json>, a: ProviderState, b: ProviderState)
    requires Carries(f, a) && Carries(f, b)
    ensures a == b
  {
    ResourcesWriterIsInjective(a.resources, b.resources);
  }

  lemma ResourcesWriterIsInjective(a: seq<MachineRecord>, b: seq<MachineRecord>)
    requires ResourcesJson(a) == ResourcesJson(b)
    ensures a == b
  {
    assert |a| == |b|;
    forall i | 0 <= i < |a| ensures a[i] == b[i] {
      assert ResourcesJson(a)[i] == ResourcesJson(b)[i];
      RecordWriterIsInjective(a[i], b[i]);
    }
  }

  lemma RecordWriterIsInjective(a: MachineRecord, b: MachineRecord)
    requires RecordJson(a) == RecordJson(b)
    ensures a == b
  {
    var f, g := RecordJson(a).fields, RecordJson(b).fields;
    assert f["resource_id"] == g["resource_id"] && f["machine_label"] == g["machine_label"];
    assert f["provider_machine_id"] == g["provider_machine_id"] && f["role"] == g["role"];
    assert f["peer_id"] == g["peer_id"] && f["spans"] == g["spans"];
    forall i | 0 <= i < |a.spans| ensures a.spans[i] == b.spans[i] {
      assert f["spans"].items[i] == g["spans"].items[i];
      assert SpanJson(a.spans[i]).items[0] == SpanJson(b.spans[i]).items[0];
      assert SpanJson(a.spans[i]).items[1] == SpanJson(b.spans[i]).items[1];
    }
  }

  /** A fully laid out state has its topology, and both routes tile the model's blocks. */
  lemma LaidOutStateHasTopology(s: ProviderState, blocks: nat)
    requires blocks >= 2 && |s.resources| == 5 && Progress(s.resources, blocks)
    ensures TopologyOf(s).Some? && RoutesTile(TopologyOf(s).value, blocks)
  {
    var rs := s.resources;
    var r4, r3, r2 := rs[..4], rs[..3], rs[..2];
    assert r4[..3] == r3 && r3[..2] == r2;
    assert Worker(rs, "worker-d") == Some(rs[4]);
    assert Worker(rs, "worker-c") == Worker(r4, "worker-c") == Some(rs[3]);
    assert Worker(rs, "worker-b") == Worker(r4, "worker-b") == Worker(r3, "worker-b") == Some(rs[2]);
    assert Worker(rs, "worker-a") == Worker(r4, "worker-a") == Worker(r3, "worker-a") == Worker(r2, "worker-a");
    assert Worker(r2, "worker-a") == Some(rs[1]);
    SplitTiles(blocks);
  }

  /** Splitting in the middle tiles the blocks for every model of at least two blocks. */
  lemma SplitTiles(blocks: nat)
    requires blocks >= 2
    ensures Tiles(LayoutSpans(1, blocks) + LayoutSpans(2, blocks), blocks)
    ensures Tiles(LayoutSpans(3, blocks) + LayoutSpans(4, blocks), blocks)
  {
    var low, high := (0, blocks / 2), (blocks / 2, blocks as int);
    assert LayoutSpans(1, blocks) + LayoutSpans(2, blocks) == [low, high];
    forall b: int {
      CoverOfTwo(low, high, b);
    }
  }

  lemma CoverOfTwo(low: (int, int), high: (int, int), block: int)
    ensures CoverCount([low, high], block) == (if low.0 <= block < low.1 then 1 else 0)
                                              + if high.0 <= block < high.1 then 1 else 0
  {
    assert [low, high][1..] == [high] && [high][1..] == [];
    assert CoverCount([], block) == 0;
    assert CoverCount([high], block) == if high.0 <= block < high.1 then 1 else 0;
  }

  /** The answer to the check before creating: the listing of the run, if the provider gives one. */
  predicate NothingAlive(reply: Reply, runId: string) {
    ValidLabel(runId) && reply.Listing? && |reply.machines| <= 64 && Clean(reply.machines)
  }

  lemma CleanHasNoneAlive(machines: seq<Machine>)
    ensures Clean(machines) <==> !exists m | m in machines :: !m.destroyed
  {
  }

  /** The checks before anything is created. */
  method MayBegin(api: FlyAPI, options: Options) returns (ok: bool, listed: seq<Machine>)
    modifies api`asked
    ensures ok <==> Serviceable(options) && NothingAlive(old(api.Coming()), options.runId)
    ensures ok ==> old(api.Coming()) == Listing(listed)
    ensures ok ==> api.History() == old(api.History()) + [Scanned(options.runId, listed)]
    ensures OnlyScanned(old(api.History()), api.History())
  {
    ok, listed := false, [];
    if options.device != "cpu" || !options.sharedDirectory {
      return;
    }
    var listing := api.ListRunMachines(options.runId);
    if listing.Raise? {
      return;
    }
    listed := listing.value;
    CleanHasNoneAlive(listed);
    if exists m | m in listed :: !m.destroyed {
      return;
    }
    var split := options.blocks / 2;
    ok := split > 0 && split < options.blocks;
  }

  predicate Serviceable(options: Options) {
    options.device == "cpu" && options.sharedDirectory && options.blocks >= 2
  }

  /** Nothing was seen or done but scans. */
  predicate OnlyScanned(before: seq<Event>, after: seq<Event>) {
    before <= after && forall i :: |before| <= i < |after| ==> after[i].Scanned?
  }

  /** The state is on disk and reads back, and the plan files are written: the topology routes every block once over
      each of the two routes. */
  ghost predicate Served(disk: Disk, state: ProviderState, a: Account, options: Options, before: seq<Json>)
    reads disk
  {
    && a.rest == [] && |a.records| == 5
    && state == ProviderState(options.runId, options.app, "ready", a.records, a.peer)
    && disk.written == before + Journals(options, a.records, a.peer) + [StateJson(state)]
    && disk.state == Some(StateJson(state)) && ReadState(disk.state.value, true) == Ok(state)
    && disk.topology == TopologyOf(state) && disk.topology.Some? && disk.control
    && RoutesTile(disk.topology.value, options.blocks)
  }

  /** The try and its trap, from the first create request on. */
  method Create(api: FlyAPI, disk: Disk, options: Options)
    returns (ending: Ending, ghost account: Account, ghost cleanup: seq<Event>)
    requires options.blocks >= 2
    modifies api, disk
    ensures !ending.Refused? && Accounted(account, options) && Entitled(cleanup, options.runId)
    ensures api.History() == old(api.History()) + account.made + account.rest + cleanup
    ensures old(disk.written) + Journals(options, account.records, account.peer) <= disk.written
    ensures !ending.Ready? ==> Explained(ending.error, account, options, disk.HasFailed())
    ensures ending.CleanupUnproved? ==>
              UnprovedOrUnwritten(api, disk, options, cleanup, account.records, old(api.now))
    ensures ending.Ready? ==> cleanup == [] && Served(disk, ending.state, account, options, old(disk.written))
    ensures ending.Reraised? ==>
              && Destroyed(cleanup, options.runId, account.records)
              && disk.state == Some(StateJson(ProviderState(
                   options.runId, options.app, "cleaned_after_failure", account.records, account.peer)))
  {
    var run := new Provisioning(api, disk, options);
    ghost var made, rest;
    ending, made, rest, cleanup := run.Guarded();
    account := Account(run.records, run.bootstrapPeer, made, rest);
    if ending.Ready? {
      LaidOutStateHasTopology(ending.state, options.blocks);
    }
  }

  /** provision.  It refuses, creating and writing nothing, exactly unless the arguments can be served and the run-tag
      query answers that nothing of the run is alive; once it has begun creating it ends in exactly one of three ways:
      - Ready: the state file holds five records its own reader accepts as this very state, the records and the
        bootstrap's address are what the provider answered, and the topology and control files are written;
      - Reraised: the cleanup proved every record destroyed and the state file says cleaned_after_failure;
      - CleanupUnproved: neither could be established, and why. */
  method Provision(api: FlyAPI, disk: Disk, options: Options)
    returns (ending: Ending, listed: seq<Machine>, ghost account: Account, ghost cleanup: seq<Event>)
    modifies api, disk
    ensures ending.Refused? <==> !(Serviceable(options) && NothingAlive(old(api.Coming()), options.runId))
    ensures ending.Refused? ==>
              && OnlyScanned(old(api.History()), api.History())
              && disk.written == old(disk.written) && disk.state == old(disk.state)
              && disk.topology == old(disk.topology)
    ensures !ending.Refused? ==>
              && Accounted(account, options) && old(api.Coming()) == Listing(listed)
              && api.History() ==
                 old(api.History()) + [Scanned(options.runId, listed)] + account.made + account.rest + cleanup
              && old(disk.written) + Journals(options, account.records, account.peer) <= disk.written
              && (!ending.Ready? ==> Explained(ending.error, account, options, disk.HasFailed()))
    ensures Entitled(cleanup, options.runId)
    ensures ending.CleanupUnproved? ==>
              UnprovedOrUnwritten(api, disk, options, cleanup, account.records, old(api.now))
    ensures ending.Ready? ==> cleanup == [] && Served(disk, ending.state, account, options, old(disk.written))
    ensures ending.Reraised? ==>
              && Destroyed(cleanup, options.runId, account.records)
              && disk.state == Some(StateJson(ProviderState(
                   options.runId, options.app, "cleaned_after_failure", account.records, account.peer)))
  {
    var ok;
    ok, listed := MayBegin(api, options);
    if !ok {
      return Refused, listed, Account([], None, [], []), [];
    }
    ending, account, cleanup := Create(api, disk, options);
  }

  // ----- A ready journal the topology cannot use -----

  lemma {:induction false} WorkerMissing(records: seq<MachineRecord>, resourceId: string)
    requires resourceId !in ResourceIds(records)
    ensures Worker(records, resourceId).None?
  {
    if records != [] {
      var n := |records| - 1;
      assert ResourceIds(records)[n] == records[n].resourceId;
      assert ResourceIds(records[..n]) == ResourceIds(records)[..n];
      WorkerMissing(records[..n], resourceId);
    }
  }

  lemma {:induction false} WorkerFindsRole(records: seq<MachineRecord>, i: nat)
    requires i < |records| && Distinct(ResourceIds(records))
    ensures Worker(records, records[i].resourceId).Some? <==> records[i].role == "worker"
  {
    var n := |records| - 1;
    var ids := ResourceIds(records);
    assert ids[i] == records[i].resourceId && ids[n] == records[n].resourceId;
    assert ResourceIds(records[..n]) == ids[..n];
    if i < n {
      WorkerFindsRole(records[..n], i);
    } else {
      assert forall j :: 0 <= j < n ==> ids[j] != ids[n];
      WorkerMissing(records[..n], records[n].resourceId);
    }
  }

  lemma {:induction false} OneBootstrap(records: seq<MachineRecord>, i: nat, j: nat)
    requires i < j < |records| && records[i].role == records[j].role == "bootstrap"
    ensures BootstrapCount(records) >= 2
  {
    if i == 0 {
      SomeBootstrap(records[1..], j - 1);
    } else {
      OneBootstrap(records[1..], i - 1, j - 1);
    }
  }

  lemma {:induction false} SomeBootstrap(records: seq<MachineRecord>, i: nat)
    requires i < |records| && records[i].role == "bootstrap"
    ensures BootstrapCount(records) >= 1
  {
    if i > 0 {
      SomeBootstrap(records[1..], i - 1);
    }
  }

  /** Exactly one record of such a list is a bootstrap. */
  lemma SoleBootstrap(rs: seq<MachineRecord>) returns (b: nat)
    requires BootstrapCount(rs) == 1
    requires forall i :: 0 <= i < |rs| ==> rs[i].role == "bootstrap" || rs[i].role == "worker"
    ensures b < |rs| && rs[b].role == "bootstrap"
    ensures forall i :: 0 <= i < |rs| && i != b ==> rs[i].role == "worker"
  {
    if forall i :: 0 <= i < |rs| ==> rs[i].role == "worker" {
      NoBootstrap(rs);
    }
    b :| 0 <= b < |rs| && rs[b].role != "worker";
    forall i | 0 <= i < |rs| && i != b ensures rs[i].role == "worker" {
      if rs[i].role == "bootstrap" {
        OneBootstrap(rs, if i < b then i else b, if i < b then b else i);
      }
    }
  }

  lemma WorkersAreTheOthers(rs: seq<MachineRecord>, b: nat, resourceId: string)
    requires Distinct(ResourceIds(rs)) && resourceId in ResourceIds(rs)
    requires b < |rs| && rs[b].role != "worker"
    requires forall i :: 0 <= i < |rs| && i != b ==> rs[i].role == "worker"
    ensures Worker(rs, resourceId).Some? <==> rs[b].resourceId != resourceId
  {
    var ids := ResourceIds(rs);
    var i :| 0 <= i < |ids| && ids[i] == resourceId;
    WorkerFindsRole(rs, i);
    assert ids[b] == rs[b].resourceId;
    if i != b {
      assert ids[i] != ids[b];
    }
  }

  /** The journal reader counts one bootstrap but does not ask which resource it is.  The topology
      exists exactly when it is bootstrap-a. */
  lemma TopologyNeedsBootstrapA(s: ProviderState)
    requires ValidState(s) && BindsFiveResources(s)
    ensures TopologyOf(s).Some? <==>
            exists i :: 0 <= i < 5 && s.resources[i].resourceId == "bootstrap-a" && s.resources[i].role == "bootstrap"
  {
    var rs, ids := s.resources, ResourceIds(s.resources);
    var b := SoleBootstrap(rs);
    assert forall x :: x in Elements(ids) <==> x in ids;
    WorkersAreTheOthers(rs, b, "worker-a");
    WorkersAreTheOthers(rs, b, "worker-b");
    WorkersAreTheOthers(rs, b, "worker-c");
    WorkersAreTheOthers(rs, b, "worker-d");
    assert ids[b] in Elements(ids);
  }

  lemma {:induction false} NoBootstrap(records: seq<MachineRecord>)
    requires forall i :: 0 <= i < |records| ==> records[i].role == "worker"
    ensures BootstrapCount(records) == 0
  {
    if records != [] {
      NoBootstrap(records[1..]);
    }
  }

  function Sample(resourceId: string, c: char, bootstrap: bool): MachineRecord {
    MachineRecord(resourceId, resourceId, seq(6, _ => c), if bootstrap then "bootstrap" else "worker",
                  seq(20, _ => c), if bootstrap then [] else [(0, 1)])
  }

  lemma SampleIsValid(resourceId: string, c: char, bootstrap: bool)
    requires ValidLabel(resourceId) && Lower(c)
    ensures ValidRecord(Sample(resourceId, c, bootstrap))
  {
  }

  const SAMPLE_IDS: seq<string> := ["bootstrap-a", "worker-a", "worker-b", "worker-c", "worker-d"]
  const SAMPLE_LETTERS: seq<char> := ['a', 'b', 'c', 'd', 'e']

  /** Five resources whose sole bootstrap is worker-a. */
  function MisboundState(): ProviderState {
    var rs := seq(5, i requires 0 <= i < 5 => Sample(SAMPLE_IDS[i], SAMPLE_LETTERS[i], i == 1));
    ProviderState("r", "a", "ready", rs, Some("/p2p/"))
  }

  lemma SampleIds()
    ensures Distinct(SAMPLE_IDS) && Distinct(SAMPLE_LETTERS)
    ensures forall i :: 0 <= i < 5 ==> ValidLabel(SAMPLE_IDS[i]) && Lower(SAMPLE_LETTERS[i])
  {
  }

  lemma MisboundStateIsValid()
    ensures ValidState(MisboundState())
  {
    var rs := MisboundState().resources;
    SampleIds();
    forall i | 0 <= i < 5 {
      SampleIsValid(SAMPLE_IDS[i], SAMPLE_LETTERS[i], i == 1);
    }
    assert ResourceIds(rs) == SAMPLE_IDS && MachineLabels(rs) == SAMPLE_IDS;
    MisboundIdentities(rs, SAMPLE_LETTERS);
    assert ValidBootstrapPeer(MisboundState().bootstrapPeer) by {
      assert "/p2p/" <= "/p2p/"[0..];
    }
  }

  lemma MisboundStateBindsFive()
    ensures BindsFiveResources(MisboundState())
  {
    var rs := MisboundState().resources;
    assert ResourceIds(rs) == SAMPLE_IDS;
    assert Elements(SAMPLE_IDS) == RESOURCES;
    NoBootstrap(rs[1..][1..]);
  }

  /** A journal bound to five resources can be accepted as ready and still have no topology. */
  lemma MisboundReadyJournal()
    ensures ReadState(StateJson(MisboundState()), true) == Ok(MisboundState())
    ensures TopologyOf(MisboundState()).None?
  {
    var s := MisboundState();
    MisboundStateIsValid();
    MisboundStateBindsFive();
    WrittenStateIsReadBack(s, true);
    assert s.resources[0].role == "worker";
    forall i | 0 <= i < 5 && s.resources[i].resourceId == "bootstrap-a" ensures i == 0 {
      assert s.resources[i].resourceId == SAMPLE_IDS[i];
    }
    TopologyNeedsBootstrapA(s);
  }

  lemma MisboundIdentities(rs: seq<MachineRecord>, letters: seq<char>)
    requires |rs| == |letters| && Distinct(letters)
    requires forall i :: 0 <= i < |rs| ==>
               rs[i].providerMachineId == seq(6, _ => letters[i]) && rs[i].peerId == seq(20, _ => letters[i])
    ensures Distinct(ProviderIds(rs)) && Distinct(PeerIds(rs))
  {
    forall i, j | 0 <= i < j < |rs|
      ensures ProviderIds(rs)[i] != ProviderIds(rs)[j] && PeerIds(rs)[i] != PeerIds(rs)[j] {
      assert ProviderIds(rs)[i][0] == letters[i] && ProviderIds(rs)[j][0] == letters[j];
      assert PeerIds(rs)[i][0] == letters[i] && PeerIds(rs)[j][0] == letters[j];
    }
  }
}
