/** The provider as the adapter meets it.  A provider is a finite script of replies and clock
    readings: any call may fail, a script that has run out fails every further call (the process
    was interrupted), and the clock never goes backwards.  The provider logs the requests, so that
    the reply to each is the one at its place in the script, and what a run has seen and done
    follows from the two. */
module FlyProvider {
  import opened Prelude
  import opened FlyJournal

  /** A machine as the provider reports it. */
  datatype Machine = Machine(id: string, destroyed: bool, metadata: Option<(string, string)>)

  datatype Reply =
    | Found(machine: Option<Machine>)
    | Listing(machines: seq<Machine>)
    | Created(id: string, privateIp: Option<string>)
    | PeerIdentity(peerId: string)
    | Done
    | TimedOut
    | Fault

  /** What the payload of a create request says of the machine. */
  datatype Order =
    Order(runId: string, resourceId: string, role: string, initialPeer: Option<string>, blocks: Option<(int, int)>)

  datatype Awaited = Started | Gone

  datatype Request =
    | Look(id: string)
    | ListRun(run: string)
    | Delete(id: string)
    | Wait(id: string, state: Awaited)
    | Post(order: Order)
    | Identify(id: string)

  datatype Event =
    | Looked(id: string, machine: Option<Machine>)
    | Scanned(run: string, machines: seq<Machine>)
    | DestroyCalled(id: string)
    | DestroyDone(id: string)
    | CreateCalled(order: Order)
    | MachineMade(id: string, privateIp: Option<string>)
    | StartDone(id: string)
    | Identified(id: string, peerId: string)

  datatype Failure = ProviderFailed | BadProviderId | BadListing

  /** What a request and the reply to it show. */
  function Shows(q: Request, reply: Reply): seq<Event> {
    match q
    case Look(id) => if reply.Found? then [Looked(id, reply.machine)] else []
    case ListRun(run) => if reply.Listing? && |reply.machines| <= 64 then [Scanned(run, reply.machines)] else []
    case Delete(id) => [DestroyCalled(id)]
    case Wait(id, Gone) => if reply.Done? then [DestroyDone(id)] else []
    case Wait(id, Started) => if reply.Done? then [StartDone(id)] else []
    case Post(order) =>
      [CreateCalled(order)] +
      if reply.Created? && ValidProviderId(reply.id) then [MachineMade(reply.id, reply.privateIp)] else []
    case Identify(id) => if reply.PeerIdentity? && ValidPeerId(reply.peerId) then [Identified(id, reply.peerId)] else []
  }

  /** The reply is one the request can go on with, or wait on. */
  predicate Answers(q: Request, reply: Reply) {
    match q
    case Look(_) => reply.Found?
    case ListRun(_) => reply.Listing? && |reply.machines| <= 64
    case Delete(_) => reply.Done?
    case Wait(_, _) => reply.Done? || reply.TimedOut?
    case Post(_) => reply.Created? && ValidProviderId(reply.id)
    case Identify(_) => reply.PeerIdentity? && ValidPeerId(reply.peerId)
  }

  /** The reply at a place of the script. */
  function At(script: seq<Reply>, i: nat): Reply {
    if i < |script| then script[i] else Fault
  }

  /** What so many requests to this script have shown. */
  function Events(asked: seq<Request>, script: seq<Reply>): seq<Event> {
    if asked == [] then []
    else
      var n := |asked| - 1;
      Events(asked[..n], script) + Shows(asked[n], At(script, n))
  }

  /** What a destruction adds to what was seen and done: the DELETE, and its confirmation if there was one. */
  function Destruction(id: string, confirmed: bool): seq<Event> {
    [DestroyCalled(id)] + if confirmed then [DestroyDone(id)] else []
  }

  lemma EventsGrow(asked: seq<Request>, q: Request, script: seq<Reply>)
    ensures Events(asked + [q], script) == Events(asked, script) + Shows(q, At(script, |asked|))
  {
    assert (asked + [q])[..|asked|] == asked;
  }

  /** Nothing is seen or done but by a request and the reply at its place. */
  lemma {:induction false} EventsAreReplies(asked: seq<Request>, script: seq<Reply>, e: Event)
    requires e in Events(asked, script)
    ensures exists i :: 0 <= i < |asked| && e in Shows(asked[i], At(script, i))
  {
    if asked != [] {
      var n := |asked| - 1;
      if e !in Shows(asked[n], At(script, n)) {
        EventsAreReplies(asked[..n], script, e);
        var i :| 0 <= i < n && e in Shows(asked[..n][i], At(script, i));
        assert asked[..n][i] == asked[i];
      }
    }
  }

  class FlyAPI {
    const script: seq<Reply>
    var asked: seq<Request>  // the requests sent so far
    var ticks: seq<nat>
    var now: nat

    constructor (script: seq<Reply>, ticks: seq<nat>)
      ensures this.script == script && this.ticks == ticks && now == 0 && asked == []
    {
      this.script, this.ticks, now, asked := script, ticks, 0, [];
    }

    /** What has been seen and done. */
    ghost function History(): seq<Event>
      reads this`asked
    {
      Events(asked, script)
    }

    /** The reply the next request will get. */
    function Coming(): Reply
      reads this`asked
    {
      At(script, |asked|)
    }

    /** The reply the last request got. */
    function Last(): Reply
      reads this`asked
    {
      if asked == [] then Fault else At(script, |asked| - 1)
    }

    /** The last request got no answer to go on with. */
    predicate Unanswered()
      reads this`asked
    {
      asked != [] && !Answers(asked[|asked| - 1], Last())
    }

    /** How many scripted replies are left. */
    function Left(): nat
      reads this`asked
    {
      if |asked| < |script| then |script| - |asked| else 0
    }

    /** Sends one request and takes the reply at its place. */
    method Send(q: Request) returns (reply: Reply)
      modifies this`asked
      ensures asked == old(asked) + [q] && reply == old(Coming()) == Last()
      ensures History() == old(History()) + Shows(q, reply)
      ensures Left() <= old(Left()) && (reply != Fault ==> Left() < old(Left()))
    {
      EventsGrow(asked, q, script);
      reply := Coming();
      asked := asked + [q];
    }

    method Monotonic() returns (time: nat)
      modifies this`ticks, this`now
      ensures time == now >= old(now)
      ensures if old(ticks) == [] then now == old(now) && ticks == []
              else now == old(now) + old(ticks)[0] && ticks == old(ticks)[1..]
    {
      if ticks != [] {
        now, ticks := now + ticks[0], ticks[1..];
      }
      time := now;
    }

    method Sleep(duration: nat)
      modifies this`now
      ensures now == old(now) + duration
    {
      now := now + duration;
    }

    /** One machine, which may not be there. */
    method GetMachine(id: string) returns (r: Result<Option<Machine>, Failure>)
      modifies this`asked
      ensures Left() <= old(Left())
      ensures r == if !ValidProviderId(id) then Raise(BadProviderId)
                   else if old(Coming()).Found? then Ok(old(Coming()).machine) else Raise(ProviderFailed)
      ensures asked == old(asked) + if ValidProviderId(id) then [Look(id)] else []
      ensures r == Raise(ProviderFailed) ==> Unanswered()
      ensures History() == old(History()) + if r.Ok? then [Looked(id, r.value)] else []
    {
      if !ValidProviderId(id) {
        return Raise(BadProviderId);
      }
      var reply := Send(Look(id));
      if !reply.Found? {
        return Raise(ProviderFailed);
      }
      r := Ok(reply.machine);
    }

    /** The exact run-tag query; at most 64 machines are accepted. */
    method ListRunMachines(runId: string) returns (r: Result<seq<Machine>, Failure>)
      modifies this`asked
      ensures Left() <= old(Left()) && (r.Ok? ==> Left() < old(Left()))
      ensures asked == old(asked) + if ValidLabel(runId) then [ListRun(runId)] else []
      ensures r.Ok? ==> old(Coming()) == Listing(r.value)
      ensures r.Ok? <==> ValidLabel(runId) && old(Coming()).Listing? && |old(Coming()).machines| <= 64
      ensures r.Raise? ==> r.error == BadListing && (!ValidLabel(runId) || Unanswered())
      ensures History() == old(History()) + if r.Ok? then [Scanned(runId, r.value)] else []
    {
      if !ValidLabel(runId) {
        return Raise(BadListing);
      }
      var reply := Send(ListRun(runId));
      if !reply.Listing? || |reply.machines| > 64 {
        return Raise(BadListing);
      }
      r := Ok(reply.machines);
    }

    /** wait_state: ask again whenever the provider's own wait times out, until the deadline.  It returns only on
        an answer asked for before the deadline; it gives up only at the deadline or on any other answer. */
    method WaitState(id: string, state: Awaited, timeout: nat) returns (ok: bool, ghost begun: nat, ghost last: nat)
      modifies this`asked, this`ticks, this`now
      ensures Left() <= old(Left()) && now >= last >= begun >= old(now) && old(asked) <= asked
      ensures forall i :: |old(asked)| <= i < |asked| ==> asked[i] == Wait(id, state)
      ensures forall i :: |old(asked)| <= i < |asked| - 1 ==> At(script, i) == TimedOut
      ensures ok ==> last < begun + timeout && |asked| > |old(asked)| && Last() == Done
      ensures !ok ==> last >= begun + timeout || Unanswered()
      ensures History() == old(History()) + if ok then Shows(Wait(id, state), Done) else []
    {
      var start := Monotonic();
      var deadline := start + timeout;
      begun, last, ok := start, start, false;
      while true
        invariant Left() <= old(Left()) && now >= last >= begun == start && old(asked) <= asked
        invariant forall i :: |old(asked)| <= i < |asked| ==> asked[i] == Wait(id, state) && At(script, i) == TimedOut
        invariant History() == old(History())
        decreases Left()
      {
        var time := Monotonic();
        last := time;
        if time >= deadline {
          return;
        }
        var reply := Send(Wait(id, state));
        if reply != TimedOut {
          ok := reply == Done;
          return;
        }
      }
    }

    /** DELETE, then wait for the destroyed state; either half may fail, and a failed DELETE may
        still have taken effect. */
    method DestroyMachine(id: string, timeout: nat) returns (r: Result<(), Failure>)
      requires ValidProviderId(id)
      modifies this`asked, this`ticks, this`now
      ensures Left() <= old(Left()) && now >= old(now)
      ensures old(asked) + [Delete(id)] <= asked && asked[|asked| - 1] in {Delete(id), Wait(id, Gone)}
      ensures forall i :: |old(asked)| < i < |asked| ==> asked[i] == Wait(id, Gone)
      ensures r.Ok? ==> old(Coming()) == Done && |asked| > |old(asked)| + 1 && Last() == Done
      ensures r.Raise? ==> r.error == ProviderFailed && (now >= old(now) + timeout || Unanswered())
      ensures History() == old(History()) + Destruction(id, r.Ok?)
    {
      var deleted := Send(Delete(id));
      if deleted != Done {
        return Raise(ProviderFailed);
      }
      var destroyed;
      ghost var begun, last;
      destroyed, begun, last := WaitState(id, Gone, timeout);
      if !destroyed {
        return Raise(ProviderFailed);
      }
      r := Ok(());
    }

    /** POST a machine; the provider may have created it even when the call fails. */
    method CreateMachine(order: Order) returns (r: Result<(string, Option<string>), Failure>)
      modifies this`asked
      ensures asked == old(asked) + [Post(order)]
      ensures r.Ok? ==> old(Coming()) == Created(r.value.0, r.value.1)
      ensures r.Ok? <==> old(Coming()).Created? && ValidProviderId(old(Coming()).id)
      ensures History() ==
              old(History()) + [CreateCalled(order)] + if r.Ok? then [MachineMade(r.value.0, r.value.1)] else []
    {
      var reply := Send(Post(order));
      if !reply.Created? || !ValidProviderId(reply.id) {
        return Raise(ProviderFailed);
      }
      r := Ok((reply.id, reply.privateIp));
    }

    /** read_peer_id: ask the machine for its public PeerID until it shows a valid one or the deadline has
        passed; only an interruption ends the loop before. */
    method ReadPeerId(id: string, timeout: nat, interval: nat) returns (r: Option<string>)
      modifies this`asked, this`ticks, this`now
      ensures now >= old(now) && old(asked) <= asked
      ensures forall i :: |old(asked)| <= i < |asked| ==> asked[i] == Identify(id)
      ensures r.Some? ==> |asked| > |old(asked)| && ValidPeerId(r.value) && Last() == PeerIdentity(r.value)
      ensures r.None? ==> now >= old(now) + timeout || Last() == Fault
      ensures History() == old(History()) + if r.Some? then [Identified(id, r.value)] else []
    {
      var start := Monotonic();
      var deadline := start + timeout;
      var time := Monotonic();
      while time < deadline
        invariant now >= time >= start && old(asked) <= asked
        invariant forall i :: |old(asked)| <= i < |asked| ==> asked[i] == Identify(id)
        invariant History() == old(History())
        decreases Left()
      {
        var reply := Send(Identify(id));
        if reply.PeerIdentity? && ValidPeerId(reply.peerId) {
          return Some(reply.peerId);
        }
        if reply == Fault {
          return None;
        }
        Sleep(interval);
        time := Monotonic();
      }
      r := None;
    }
  }
}
