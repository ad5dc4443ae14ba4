/** qualify_localhost_inference: a temporary API key created for one request and revoked again, against
    a key server whose replies may be lost, and which may carry out a create late. */
module TemporaryKey {
  import opened Prelude

  const LABEL: string := "Gate 13 localhost inference"

  datatype Key = Key(keyLabel: string, active: bool)

  /** What one request meets.  `lands` lets a create that is still under way finish first. */
  datatype Reply = Reply(lands: bool, fails: bool, effect: bool, late: bool, id: nat, claimed: nat, valid: bool)

  const LOST: Reply := Reply(false, true, false, false, 0, 0, false)

  const FINE: Reply := Reply(false, false, false, false, 0, 0, true)

  /** A create that is accepted, and carried out only after the clean-up has looked. */
  const LATE: Reply := Reply(false, true, false, true, 7, 0, false)

  const LATE_RUN: seq<Reply> := [FINE, FINE, LATE, FINE]

  datatype Request = Status | List | Post | Completion | Delete(id: nat)

  /** The answer arrives, and says what it should. */
  predicate Fine(reply: Reply) {
    !reply.fails && reply.valid
  }

  function Active(keys: map<nat, Key>): set<nat> {
    set id | id in keys && keys[id].active
  }

  /** The active keys, as an inventory lists them. */
  function Listed(keys: map<nat, Key>): map<nat, Key> {
    map id | id in keys && keys[id].active :: keys[id]
  }

  class KeyServer {
    const script: seq<Reply>
    var requests: seq<Request>     // the requests made so far
    var keys: map<nat, Key>
    var pending: Option<nat>       // a create the server has accepted but not carried out
    ghost var created: seq<nat>
    ghost var revoked: seq<nat>

    constructor (keys: map<nat, Key>, script: seq<Reply>)
      ensures this.keys == keys && pending == None && this.script == script && requests == []
      ensures created == [] && revoked == []
    {
      this.keys, pending, this.script, requests, created, revoked := keys, None, script, [], [], [];
    }

    /** What the i-th request meets. */
    function At(i: nat): Reply {
      if i < |script| then script[i] else LOST
    }

    /** How many requests have been made. */
    function Made(): nat
      reads this`requests
    {
      |requests|
    }

    method Exchange(request: Request) returns (reply: Reply)
      modifies this`keys, this`pending, this`requests, this`created
      ensures reply == At(old(Made())) && requests == old(requests) + [request]
      ensures Passed(reply)
    {
      reply, requests := At(Made()), requests + [request];
      if reply.lands && pending.Some? && pending.value !in keys {
        keys, created, pending := keys[pending.value := Key(LABEL, true)], created + [pending.value], None;
      }
    }

    /** A create under way finishes if this reply lets it; otherwise nothing happens. */
    twostate predicate Passed(reply: Reply)
      reads this
    {
      if reply.lands && old(pending).Some? && old(pending).value !in old(keys) then
        && pending == None && keys == old(keys)[old(pending).value := Key(LABEL, true)]
        && created == old(created) + [old(pending).value]
      else keys == old(keys) && pending == old(pending) && created == old(created)
    }

    /** The keys once a create still under way has finished. */
    ghost function Settled(): map<nat, Key>
      reads this`keys, this`pending
    {
      if pending.Some? && pending.value !in keys then keys[pending.value := Key(LABEL, true)] else keys
    }

    /** GET: the active keys, truly, or a failure. */
    method Inventory() returns (active: Option<map<nat, Key>>)
      modifies this`keys, this`pending, this`requests, this`created
      ensures requests == old(requests) + [List] && Passed(At(old(Made())))
      ensures active == if Fine(At(old(Made()))) then Some(Listed(keys)) else None
    {
      var reply := Exchange(List);
      active := if Fine(reply) then Some(Listed(keys)) else None;
    }

    /** POST: a new key under an unused identifier, now, later or never.  A reply that arrives whole says
        the key was made, but what it says of the identifier is believed only as far as it checks out. */
    method Create() returns (claimed: Option<nat>)
      requires pending.None?
      modifies this`keys, this`pending, this`requests, this`created
      ensures requests == old(requests) + [Post]
      ensures var reply, free := At(old(Made())), At(old(Made())).id !in old(keys);
              && pending == (if free && reply.late then Some(reply.id) else None)
              && keys == (if free && reply.effect && !reply.late then old(keys)[reply.id := Key(LABEL, true)]
                          else old(keys))
              && created == (if free && reply.effect && !reply.late then old(created) + [reply.id] else old(created))
              && claimed == (if free && reply.effect && !reply.late && Fine(reply) then Some(reply.claimed) else None)
    {
      var reply := Exchange(Post);
      if reply.id in keys {
        return None;
      }
      if reply.late {
        pending := Some(reply.id);
        return None;
      }
      if !reply.effect {
        return None;
      }
      keys, created := keys[reply.id := Key(LABEL, true)], created + [reply.id];
      claimed := if Fine(reply) then Some(reply.claimed) else None;
    }

    /** DELETE. */
    method Revoke(id: nat) returns (proved: bool)
      requires pending.None? && id in keys
      modifies this`keys, this`pending, this`requests, this`created, this`revoked
      ensures requests == old(requests) + [Delete(id)]
      ensures pending.None? && created == old(created)
      ensures var reply := At(old(Made()));
              && keys == (if reply.effect then old(keys)[id := old(keys)[id].(active := false)] else old(keys))
              && revoked == (if reply.effect then old(revoked) + [id] else old(revoked))
              && (proved <==> reply.effect && Fine(reply))
    {
      var reply := Exchange(Delete(id));
      if !reply.effect {
        return false;
      }
      keys, revoked := keys[id := keys[id].(active := false)], revoked + [id];
      proved := Fine(reply);
    }

    /** Any other request. */
    method Ask(request: Request) returns (ok: bool)
      modifies this`keys, this`pending, this`requests, this`created
      ensures requests == old(requests) + [request] && Passed(At(old(Made())))
      ensures ok <==> Fine(At(old(Made())))
    {
      var reply := Exchange(request);
      ok := Fine(reply);
    }
  }

  // ----- What a run may have done so far -----

  /** Every key there was is as it was; the only others are at most one key this run made. */
  ghost predicate OneMore(before: map<nat, Key>, now: map<nat, Key>, made: seq<nat>) {
    && |made| <= 1
    && now.Keys == before.Keys + Elements(made)
    && (forall id | id in before :: id !in made && now[id] == before[id])
    && forall id | id in made :: now[id].keyLabel == LABEL
  }

  /** The unrevoked keys of the run. */
  lemma OneMoreActive(before: map<nat, Key>, now: map<nat, Key>, made: seq<nat>)
    requires OneMore(before, now, made)
    ensures Active(now) == Active(before) + (set id | id in made && now[id].active)
  {
  }

  /** The keys are the old ones and the run's, and a create can only be under way if none has finished. */
  ghost predicate Consistent(server: KeyServer, before: map<nat, Key>)
    reads server`keys, server`pending, server`created
  {
    && OneMore(before, server.keys, server.created)
    && (server.pending.Some? ==> server.created == [] && server.pending.value !in server.keys)
  }

  /** The run's keys are unrevoked. */
  ghost predicate Unrevoked(server: KeyServer)
    reads server`keys, server`created
  {
    forall id | id in server.created :: id in server.keys && server.keys[id].active
  }

  /** A create is under way, and the inventory the clean-up begins with does not let it finish. */
  predicate StillUnderWay(server: KeyServer, pending: Option<nat>, start: nat) {
    pending.Some? && !server.At(start).lands
  }

  /** An inventory, during which a create that was under way may finish. */
  method Current(server: KeyServer, ghost before: map<nat, Key>) returns (active: Option<map<nat, Key>>)
    requires Consistent(server, before) && Unrevoked(server)
    modifies server`keys, server`pending, server`requests, server`created
    ensures Consistent(server, before) && Unrevoked(server)
    ensures server.requests == old(server.requests) + [List]
    ensures active == if Fine(server.At(old(server.Made()))) then Some(Listed(server.keys)) else None
    ensures server.pending.Some? <==> StillUnderWay(server, old(server.pending), old(server.Made()))
    ensures server.created ==
              if old(server.pending).Some? && server.pending.None? then [old(server.pending).value]
              else old(server.created)
  {
    active := server.Inventory();
  }

  /** The active keys of this run, as an inventory shows them. */
  method Candidates(server: KeyServer, baseline: map<nat, Key>, keyId: Option<nat>, ghost before: map<nat, Key>)
    returns (candidates: Option<set<nat>>)
    requires Consistent(server, before) && baseline.Keys == Active(before) && Unrevoked(server)
    modifies server`keys, server`pending, server`requests, server`created
    ensures Consistent(server, before) && Unrevoked(server)
    ensures server.requests == old(server.requests) + [List]
    ensures server.pending.Some? <==> StillUnderWay(server, old(server.pending), old(server.Made()))
    ensures server.created ==
              if old(server.pending).Some? && server.pending.None? then [old(server.pending).value]
              else old(server.created)
    ensures candidates == if Fine(server.At(old(server.Made()))) then Some(Elements(server.created)) else None
  {
    var current := Current(server, before);
    if current.None? {
      return None;
    }
    FoundAreMade(before, server.keys, server.created, baseline, keyId);
    var found := Found(current.value, baseline);
    if keyId.Some? && keyId.value in current.value && keyId.value !in baseline {
      assert keyId.value in found;
      found := found + {keyId.value};
    }
    assert found == Elements(server.created);
    candidates := Some(found);
  }

  /** Keys with the run's label that were not active before. */
  function Found(current: map<nat, Key>, baseline: map<nat, Key>): set<nat> {
    set id | id in current && id !in baseline && current[id].keyLabel == LABEL
  }

  /** The active keys outside the baseline are the run's, whether found by label or by identifier. */
  lemma FoundAreMade(
    before: map<nat, Key>, now: map<nat, Key>, made: seq<nat>, baseline: map<nat, Key>, keyId: Option<nat>)
    requires OneMore(before, now, made) && forall id | id in made :: now[id].active
    requires baseline.Keys == Active(before)
    ensures Found(Listed(now), baseline) == Elements(made)
    ensures keyId.Some? && keyId.value in Listed(now) && keyId.value !in baseline ==> keyId.value in made
  {
    OneMoreActive(before, now, made);
    assert forall id :: id in Listed(now) <==> id in Active(now);
    assert forall id :: id in baseline <==> id in Active(before);
  }

  /** The DELETE takes effect and says so. */
  predicate Revokes(reply: Reply) {
    reply.effect && Fine(reply)
  }

  /** Revoke the key and see the baseline back: it succeeds exactly when both requests go well, and the key is
      revoked exactly when the first takes effect. */
  method RevokeAndCheck(server: KeyServer, id: nat, baseline: map<nat, Key>, ghost before: map<nat, Key>)
    returns (failed: bool)
    requires Consistent(server, before) && server.created == [id] && server.revoked == [] && Unrevoked(server)
    requires baseline.Keys == Active(before)
    modifies server`keys, server`pending, server`requests, server`created, server`revoked
    ensures Consistent(server, before) && server.created == [id]
    ensures server.requests ==
              old(server.requests) + [Delete(id)] + if Revokes(server.At(old(server.Made()))) then [List] else []
    ensures !failed <==> Revokes(server.At(old(server.Made()))) && Fine(server.At(old(server.Made()) + 1))
    ensures server.revoked == if server.At(old(server.Made())).effect then [id] else []
    ensures server.Settled() == server.keys && server.pending.None?
    ensures Active(server.keys) == Active(before) <==> server.At(old(server.Made())).effect
  {
    assert id in server.created;
    var proved := server.Revoke(id);
    OneMoreActive(before, server.keys, server.created);
    assert id in Active(server.keys) <==> !server.At(old(server.Made())).effect;
    if !proved {
      return true;
    }
    var after := server.Inventory();
    failed := after.None? || after.value.Keys != baseline.Keys;
  }

  lemma AtMostOne(s: seq<nat>)
    requires |s| <= 1
    ensures |Elements(s)| == |s| && (s != [] ==> Elements(s) == {s[0]})
  {
    if s != [] {
      assert Elements(s) == {s[0]};
    }
  }

  /** While nothing is revoked, a key of this run, made or under way, is what changes the active ones. */
  lemma NothingRevoked(server: KeyServer, before: map<nat, Key>)
    requires Consistent(server, before) && Unrevoked(server)
    ensures Active(server.Settled()) == Active(before) <==> server.pending.None? && server.created == []
  {
    OneMoreActive(before, server.keys, server.created);
    if server.pending.Some? {
      assert server.pending.value in Active(server.Settled());
    } else if server.created != [] {
      assert server.created[0] in Active(server.keys);
    }
  }

  /** The clean-up's requests, by its replies: the inventory, and if that shows a key of the run its DELETE, and after
      one that goes well the inventory again. */
  function CleanupRequests(server: KeyServer, start: nat, made: seq<nat>): seq<Request> {
    [List] + Rest(server, start, made)
  }

  function Rest(server: KeyServer, start: nat, made: seq<nat>): seq<Request> {
    if made == [] || !Fine(server.At(start)) then []
    else [Delete(made[0])] + if Revokes(server.At(start + 1)) then [List] else []
  }

  /** Its three requests go well. */
  predicate GoesWell(server: KeyServer, start: nat) {
    Fine(server.At(start)) && Revokes(server.At(start + 1)) && Fine(server.At(start + 2))
  }

  /** A key that is there is found and its DELETE takes effect. */
  predicate GetsRid(server: KeyServer, start: nat) {
    Fine(server.At(start)) && server.At(start + 1).effect
  }

  /** The clean-up: find the one key of this run, revoke it, and see the baseline back. */
  method CleanUp(server: KeyServer, baseline: map<nat, Key>, keyId: Option<nat>, ghost before: map<nat, Key>)
    returns (failed: bool)
    requires Consistent(server, before) && server.revoked == [] && baseline.Keys == Active(before)
    requires Unrevoked(server)
    modifies server`keys, server`pending, server`requests, server`created, server`revoked
    ensures Consistent(server, before)
    ensures server.pending.Some? <==> StillUnderWay(server, old(server.pending), old(server.Made()))
    ensures server.created ==
              if old(server.pending).Some? && server.pending.None? then [old(server.pending).value]
              else old(server.created)
    ensures server.requests == old(server.requests) + CleanupRequests(server, old(server.Made()), server.created)
    ensures !failed <==> server.created != [] && GoesWell(server, old(server.Made()))
    ensures server.revoked == if GetsRid(server, old(server.Made())) then server.created else []
    ensures Active(server.Settled()) == Active(before) <==>
              server.pending.None? && (server.created == [] || GetsRid(server, old(server.Made())))
  {
    var candidates := Candidates(server, baseline, keyId, before);
    failed := RevokeFound(server, candidates, baseline, before);
  }

  /** What follows the first inventory: unless it shows exactly one key of the run, nothing. */
  method RevokeFound(
    server: KeyServer, candidates: Option<set<nat>>, baseline: map<nat, Key>, ghost before: map<nat, Key>)
    returns (failed: bool)
    requires Consistent(server, before) && server.revoked == [] && baseline.Keys == Active(before)
    requires Unrevoked(server) && server.Made() > 0
    requires candidates ==
               if Fine(server.At(server.Made() - 1)) then Some(Elements(server.created)) else None
    modifies server`keys, server`pending, server`requests, server`created, server`revoked
    ensures Consistent(server, before) && server.created == old(server.created) && server.pending == old(server.pending)
    ensures server.requests == old(server.requests) + Rest(server, old(server.Made()) - 1, server.created)
    ensures !failed <==> server.created != [] && GoesWell(server, old(server.Made()) - 1)
    ensures server.revoked == if GetsRid(server, old(server.Made()) - 1) then server.created else []
    ensures Active(server.Settled()) == Active(before) <==>
              server.pending.None? && (server.created == [] || GetsRid(server, old(server.Made()) - 1))
  {
    AtMostOne(server.created);
    if candidates.None? || |candidates.value| != 1 {
      assert server.created == [] || !Fine(server.At(server.Made() - 1));
      NothingRevoked(server, before);
      return true;
    }
    var id :| id in candidates.value;
    assert server.created == [id];
    failed := RevokeAndCheck(server, id, baseline, before);
  }

  /** The inventory before the run shows some active keys, and none with the run's label. */
  predicate Usable(active: map<nat, Key>) {
    active != map[] && forall id | id in active :: active[id].keyLabel != LABEL
  }

  /** The status request and the active keys before the run. */
  method Baseline(server: KeyServer) returns (baseline: Option<map<nat, Key>>)
    requires server.pending.None?
    modifies server`keys, server`pending, server`requests, server`created
    ensures server.keys == old(server.keys) && server.pending.None? && server.created == old(server.created)
    ensures old(server.requests) <= server.requests
    ensures baseline.Some? ==> server.requests == old(server.requests) + [Status, List]
    ensures baseline == if Fine(server.At(old(server.Made()))) && Fine(server.At(old(server.Made()) + 1))
                           && Usable(Listed(server.keys)) then Some(Listed(server.keys)) else None
  {
    var status := server.Ask(Status);
    if !status {
      return None;
    }
    var inventory := server.Inventory();
    if inventory.None? || !Usable(inventory.value) {
      return None;
    }
    baseline := inventory;
  }

  /** What a POST under this reply makes of the keys there are: a key at once, a key later, and an identifier its
      caller believes. */
  predicate MakesNow(reply: Reply, keys: map<nat, Key>) {
    reply.id !in keys && reply.effect && !reply.late
  }

  predicate MakesLater(reply: Reply, keys: map<nat, Key>) {
    reply.id !in keys && reply.late
  }

  predicate Told(reply: Reply, keys: map<nat, Key>) {
    MakesNow(reply, keys) && Fine(reply)
  }

  /** The number of the clean-up's first request: a run whose create is answered asks for a completion as well. */
  function CleanupStart(server: KeyServer, keys: map<nat, Key>): nat {
    if Told(server.At(2), keys) then 4 else 3
  }

  /** All the requests of a run with a usable baseline. */
  function RunRequests(server: KeyServer, keys: map<nat, Key>, made: seq<nat>): seq<Request> {
    [Status, List] + [Post] + (if Told(server.At(2), keys) then [Completion] else [])
    + CleanupRequests(server, CleanupStart(server, keys), made)
  }

  /** By the replies, for any script: the run leaves no active key.  A key made at once is found and revoked; one made
      later is made in time to be found, and revoked. */
  predicate LeavesNothing(server: KeyServer, keys: map<nat, Key>) {
    var start := CleanupStart(server, keys);
    && (MakesNow(server.At(2), keys) ==> GetsRid(server, start))
    && (MakesLater(server.At(2), keys) ==> server.At(start).lands && GetsRid(server, start))
  }

  /** qualify_localhost_inference, on a server nobody else is using.  No key that was there is ever changed; a normal
      return means that one key was made and the same one revoked; and for every script its replies say exactly which
      requests are made, when the run passes, and when the active keys end as they began, the reply to the create
      itself lost or not. */
  method Qualify(server: KeyServer) returns (passed: bool, ghost begun: bool)
    requires server.pending.None? && server.created == [] && server.revoked == [] && server.requests == []
    modifies server`keys, server`pending, server`requests, server`created, server`revoked
    ensures forall id | id in old(server.keys) :: id in server.keys && server.keys[id] == old(server.keys)[id]
    // A create is asked for exactly when there is a baseline to come back to.
    ensures begun <==> Fine(server.At(0)) && Fine(server.At(1)) && Usable(Listed(old(server.keys)))
    ensures !begun ==> !passed && server.keys == old(server.keys) && server.pending.None?
    // Then there is a clean-up, whatever became of the create.
    ensures begun ==> server.requests == RunRequests(server, old(server.keys), server.created)
    ensures begun ==>
              (Active(server.Settled()) == Active(old(server.keys)) <==> LeavesNothing(server, old(server.keys)))
    ensures passed <==>
              begun && Told(server.At(2), old(server.keys)) && Fine(server.At(3)) && GoesWell(server, 4)
    ensures passed ==>
              && |server.created| == 1 && server.revoked == server.created && server.pending.None?
              && Active(server.keys) == Active(old(server.keys))
    ensures server.created == [] && server.pending.None? ==> server.keys == old(server.keys)
  {
    ghost var before := server.keys;
    passed, begun := false, false;
    var found := Baseline(server);
    if found.None? {
      return;
    }
    begun := true;
    passed := AskAndCleanUp(server, found.value);
  }

  /** The create, the completion and the clean-up, on a server whose active keys are the baseline. */
  method AskAndCleanUp(server: KeyServer, baseline: map<nat, Key>) returns (passed: bool)
    requires server.pending.None? && server.created == [] && server.revoked == []
    requires server.requests == [Status, List] && baseline.Keys == Active(server.keys)
    modifies server`keys, server`pending, server`requests, server`created, server`revoked
    ensures Consistent(server, old(server.keys))
    ensures server.requests == RunRequests(server, old(server.keys), server.created)
    ensures Active(server.Settled()) == Active(old(server.keys)) <==> LeavesNothing(server, old(server.keys))
    ensures passed <==> Told(server.At(2), old(server.keys)) && Fine(server.At(3)) && GoesWell(server, 4)
    ensures passed ==> |server.created| == 1 && server.revoked == server.created && server.pending.None?
  {
    ghost var before := server.keys;
    var keyId, completed := AskForKey(server);
    ghost var pending, created := server.pending, server.created;
    var failed := CleanUp(server, baseline, keyId, before);
    passed := completed && !failed;
    ByReplies(server, before, pending, created, server.pending, server.created);
  }

  /** The create, and when its reply is believed the completion. */
  method AskForKey(server: KeyServer) returns (keyId: Option<nat>, completed: bool)
    requires server.pending.None? && server.created == [] && server.Made() == 2
    modifies server`keys, server`pending, server`requests, server`created
    ensures Consistent(server, old(server.keys)) && Unrevoked(server)
    ensures server.pending ==
              if MakesLater(server.At(2), old(server.keys)) then Some(server.At(2).id) else None
    ensures server.created == if MakesNow(server.At(2), old(server.keys)) then [server.At(2).id] else []
    ensures server.requests ==
              old(server.requests) + [Post] + if Told(server.At(2), old(server.keys)) then [Completion] else []
    ensures completed <==> Told(server.At(2), old(server.keys)) && Fine(server.At(3))
  {
    keyId := server.Create();
    completed := false;
    if keyId.Some? {
      completed := server.Ask(Completion);
    }
  }

  /** What the first reply of the clean-up makes of a create, and so what is left in the end. */
  lemma ByReplies(
    server: KeyServer, keys: map<nat, Key>, pending: Option<nat>, created: seq<nat>, pendingAfter: Option<nat>,
    createdAfter: seq<nat>)
    requires pending == if MakesLater(server.At(2), keys) then Some(server.At(2).id) else None
    requires created == if MakesNow(server.At(2), keys) then [server.At(2).id] else []
    requires pendingAfter.Some? <==> StillUnderWay(server, pending, CleanupStart(server, keys))
    requires createdAfter == if pending.Some? && pendingAfter.None? then [pending.value] else created
    ensures pendingAfter.None? && (createdAfter == [] || GetsRid(server, CleanupStart(server, keys))) <==>
              LeavesNothing(server, keys)
  {
  }

  /** Where the clean-up's requests go well, lost replies and all, only a create still under way after its first look
      leaves a key. */
  lemma WorkingCleanup(server: KeyServer, keys: map<nat, Key>)
    requires GoesWell(server, CleanupStart(server, keys))
    ensures LeavesNothing(server, keys) <==>
              !(MakesLater(server.At(2), keys) && !server.At(CleanupStart(server, keys)).lands)
  {
  }

  /** A create that the server carries out after the clean-up's first look: every request of the clean-up works, and
      a key of the run is active in the end. */
  method LateCreate() returns (server: KeyServer, passed: bool)
    ensures fresh(server) && !passed
    ensures Active(server.Settled()) != Active(map[5 := Key("", true)])
  {
    server := new KeyServer(map[5 := Key("", true)], LATE_RUN);
    assert 5 in Listed(server.keys);
    ghost var begun;
    passed, begun := Qualify(server);
  }
}
