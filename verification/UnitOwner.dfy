/** SystemdUnitOwner: which systemd units a run owns, and when it may let go of one.  The outside world
    is the number of processes in each unit's cgroup; between any two looks it may change arbitrarily,
    except that an empty cgroup stays empty. */
module UnitOwner {
  import opened Prelude

  /** One exchange with systemd or the clock: whether it raises, what it says, and what the cgroups
      have become by then. */
  datatype Reply = Reply(raises: bool, yes: bool, pid: nat, counts: map<nat, nat>)

  /** What systemd is asked to do. */
  datatype Request = RunUnit(unit: nat) | StopUnit(unit: nat) | KillMain(unit: nat) | KillAll(unit: nat)

  /** The units that were to be stopped, in order. */
  function Stops(asked: seq<Request>): seq<nat> {
    if asked == [] then []
    else
      var last := asked[|asked| - 1];
      Stops(asked[..|asked| - 1]) + if last.StopUnit? then [last.unit] else []
  }

  /** A stop of this unit goes well with these replies: none raises, the unit is empty at once, and it is unloaded
      before the time is up. */
  predicate GoesWell(replies: seq<Reply>, unit: nat) {
    && |replies| == 8 && (forall i :: 0 <= i < 8 ==> !replies[i].raises)
    && unit in replies[0].counts && replies[0].counts[unit] == 0
    && !replies[6].yes && replies[7].yes
  }

  class Systemd {
    var asked: seq<Request>
    var counts: map<nat, nat>      // processes in the cgroup of each unit that was ever launched
    var script: seq<Reply>

    constructor (script: seq<Reply>)
      ensures counts == map[] && this.script == script && asked == []
    {
      asked, counts, this.script := [], map[], script;
    }

    function Count(unit: nat): nat
      reads this`counts
    {
      if unit in counts then counts[unit] else 0
    }

    /** Any exchange; without a script left it raises. */
    method Exchange() returns (reply: Reply)
      modifies this`counts, this`script
      ensures StaysEmpty(old(counts), counts)
      ensures |script| <= |old(script)| && (!reply.raises ==> |script| < |old(script)|)
      ensures old(script) == [] ==> reply.raises && script == [] && counts == old(counts)
      ensures old(script) != [] ==> script == old(script)[1..] && reply == old(script)[0]
      ensures old(script) != [] ==>
                forall u | u in old(script)[0].counts && old(script)[0].counts[u] == 0 :: Count(u) == 0
    {
      if script == [] {
        return Reply(true, false, 0, map[]);
      }
      reply, script := script[0], script[1..];
      counts := map u | u in counts ::
        if counts[u] == 0 then 0 else if u in reply.counts then reply.counts[u] else counts[u];
    }

    /** A request about a unit. */
    method Ask(request: Request) returns (reply: Reply)
      modifies this
      ensures asked == old(asked) + [request]
      ensures StaysEmpty(old(counts), counts)
      ensures |script| <= |old(script)| && (!reply.raises ==> |script| < |old(script)|)
      ensures old(script) == [] ==> reply.raises && script == [] && counts == old(counts)
      ensures old(script) != [] ==> script == old(script)[1..] && reply == old(script)[0]
      ensures old(script) != [] ==>
                forall u | u in old(script)[0].counts && old(script)[0].counts[u] == 0 :: Count(u) == 0
    {
      asked := asked + [request];
      reply := Exchange();
    }

    /** What the next exchange will say goes well. */
    predicate Agrees()
      reads this`script
    {
      script != [] && !script[0].raises && script[0].yes
    }

    /** The next exchange will raise. */
    predicate Refuses()
      reads this`script
    {
      script == [] || script[0].raises
    }

    /** The number of processes in a cgroup, or nothing when it cannot be read. */
    method Processes(unit: nat) returns (n: Option<nat>)
      modifies this`counts, this`script
      ensures StaysEmpty(old(counts), counts)
      ensures |script| <= |old(script)| && (n.Some? ==> |script| < |old(script)|)
      ensures n == if old(Refuses()) then None else Some(Count(unit))
      ensures old(script) != [] ==> script == old(script)[1..]
    {
      var reply := Exchange();
      n := if reply.raises then None else Some(Count(unit));
    }

    /** systemd-run: the unit may come to life whatever the call says. */
    method Launch(unit: nat) returns (reply: Reply)
      requires unit !in counts
      modifies this
      ensures asked == old(asked) + [RunUnit(unit)]
      ensures counts.Keys == old(counts).Keys || counts.Keys == old(counts).Keys + {unit}
      ensures forall u | u in old(counts) :: old(counts)[u] == 0 ==> counts[u] == 0
      ensures |script| <= |old(script)|
      ensures (reply.raises <==> old(Refuses())) && (!reply.raises && reply.yes <==> old(Agrees()))
      ensures old(script) != [] ==> script == old(script)[1..] && reply == old(script)[0]
      ensures old(script) != [] && unit in old(script)[0].counts ==> Count(unit) == old(script)[0].counts[unit]
    {
      reply := Ask(RunUnit(unit));
      if unit in reply.counts {
        counts := counts[unit := reply.counts[unit]];
      }
    }
  }

  ghost predicate StaysEmpty(before: map<nat, nat>, after: map<nat, nat>) {
    && before.Keys == after.Keys
    && forall u | u in before :: before[u] == 0 ==> after[u] == 0
  }

  /** tuple(reversed(...)). */
  function Reversed<T>(s: seq<T>): (r: seq<T>)
    ensures |r| == |s| && forall i :: 0 <= i < |s| ==> r[i] == s[|s| - 1 - i]
  {
    if s == [] then [] else Reversed(s[1..]) + [s[0]]
  }

  /** list.remove for a list without repetitions. */
  function Without<T(==)>(s: seq<T>, x: T): seq<T> {
    if s == [] then [] else if s[0] == x then s[1..] else [s[0]] + Without(s[1..], x)
  }

  lemma {:induction false} WithoutIs<T(!new)>(s: seq<T>, x: T)
    requires Distinct(s)
    ensures Distinct(Without(s, x)) && Elements(Without(s, x)) == Elements(s) - {x}
  {
    if s != [] {
      assert Elements(s) == {s[0]} + Elements(s[1..]);
      if s[0] == x {
        assert x !in s[1..];
      } else {
        WithoutIs(s[1..], x);
        assert Elements(Without(s, x)) == {s[0]} + Elements(Without(s[1..], x));
        assert s[0] !in Elements(s[1..]);
      }
    }
  }

  /** Why a unit was launched and not adopted: the launch did not report success, or the wait for the unit's
      identity ended without it. */
  datatype Loss = LaunchFailed | WaitFailed

  class SystemdUnitOwner {
    const systemd: Systemd
    var owned: seq<nat>
    var counter: nat
    ghost var launched: set<nat>   // every unit systemd was ever asked to run
    ghost var adopted: set<nat>    // every unit that was ever owned

    constructor (systemd: Systemd)
      requires systemd.counts == map[]
      ensures this.systemd == systemd && owned == [] && counter == 0
                && launched == adopted == {} && Valid()
    {
      this.systemd, owned, counter, launched, adopted := systemd, [], 0, {}, {};
    }

    ghost predicate Valid()
      reads this, systemd
    {
      && Distinct(owned) && Elements(owned) <= adopted <= launched
      && (forall u | u in launched :: u <= counter)
      && systemd.counts.Keys <= launched
      && Empty(adopted - Elements(owned))
    }

    /** None of these units has a process. */
    ghost predicate Empty(units: set<nat>)
      reads systemd
    {
      forall u | u in units :: systemd.Count(u) == 0
    }

    /** The units nobody is going to stop: launched, and never adopted. */
    ghost function Lost(): set<nat>
      reads this
    {
      launched - adopted
    }

    /** What every operation keeps, whether it returns or raises: nothing adopted is forgotten, and what
        was let go of has no process. */
    twostate predicate Keeps()
      reads this, systemd
    {
      Valid() && old(adopted) <= adopted && old(launched) <= launched && old(counter) <= counter
    }

    method Adopt(unit: nat)
      requires Valid() && unit in launched && unit !in adopted
      modifies this`owned, this`adopted
      ensures Valid() && owned == old(owned) + [unit] && adopted == old(adopted) + {unit}
    {
      owned, adopted := owned + [unit], adopted + {unit};
      assert adopted - Elements(owned) == old(adopted) - Elements(old(owned));
    }

    method Remove(unit: nat)
      requires Valid() && unit in owned && systemd.Count(unit) == 0
      modifies this`owned
      ensures Valid() && owned == Without(old(owned), unit)
    {
      WithoutIs(owned, unit);
      owned := Without(owned, unit);
      assert adopted - Elements(owned) == adopted - Elements(old(owned)) + {unit};
    }

    /** reset-failed, then wait for the unit to be unloaded. */
    method ForgetUnit() returns (raised: bool)
      requires Valid()
      modifies systemd`counts, systemd`script
      ensures Keeps()
      ensures old(|systemd.script| >= 3 && (forall i :: 0 <= i < 3 ==> !systemd.script[i].raises)
                  && !systemd.script[1].yes && systemd.script[2].yes) ==>
                !raised && systemd.script == old(systemd.script)[3..]
    {
      var reply := systemd.Exchange();
      raised := reply.raises;
      ghost var first := true;
      while !raised
        invariant Keeps()
        invariant first && old(|systemd.script| >= 3 && !systemd.script[0].raises) ==>
                    !raised && systemd.script == old(systemd.script)[1..]
        invariant !first ==> !old(|systemd.script| >= 3 && (forall i :: 0 <= i < 3 ==> !systemd.script[i].raises)
                                  && !systemd.script[1].yes && systemd.script[2].yes)
        decreases |systemd.script|
      {
        var late := systemd.Exchange();
        if late.raises || late.yes {
          return true;
        }
        var unloaded := systemd.Exchange();
        if unloaded.raises || unloaded.yes {
          return unloaded.raises;
        }
        var sleep := systemd.Exchange();
        raised, first := sleep.raises, false;
      }
    }

    /** Poll until the cgroup is empty or the time is up: what the last look says, or nothing. */
    method WaitEmpty(unit: nat) returns (empty: Option<bool>)
      requires Valid()
      modifies systemd`counts, systemd`script
      ensures Keeps()
      ensures empty == Some(true) ==> systemd.Count(unit) == 0
      ensures old(|systemd.script| >= 2 && !systemd.script[0].raises && !systemd.script[1].raises
                  && systemd.Count(unit) == 0) ==>
                empty == Some(true) && systemd.script == old(systemd.script)[2..]
    {
      while true
        invariant Keeps()
        invariant old(systemd.Count(unit)) == 0 ==>
                    systemd.Count(unit) == 0 && systemd.script == old(systemd.script)
        decreases |systemd.script|
      {
        var n := systemd.Processes(unit);
        if n.None? {
          return None;
        }
        if n.value == 0 {
          break;
        }
        var late := systemd.Exchange();
        if late.raises {
          return None;
        }
        if late.yes {
          break;
        }
        var sleep := systemd.Exchange();
        if sleep.raises {
          return None;
        }
      }
      var last := systemd.Processes(unit);
      empty := if last.None? then None else Some(last.value == 0);
    }

    /** stop.  An owned unit is asked to stop, and killed if it is not empty when the time is up; it is let go of only
        when it is empty, and when all goes well the call returns. */
    method Stop(unit: nat) returns (raised: bool, forced: bool)
      requires Valid()
      modifies this`owned, systemd
      ensures Keeps()
      ensures unit !in old(owned) ==>
                raised && !forced && systemd.asked == old(systemd.asked) && systemd.script == old(systemd.script)
      ensures unit in old(owned) ==>
                systemd.asked == old(systemd.asked) + [StopUnit(unit)] + if forced then [KillAll(unit)] else []
      ensures owned == old(owned) || (unit in old(owned) && owned == Without(old(owned), unit))
      ensures !raised ==> unit in old(owned) && owned == Without(old(owned), unit)
      ensures unit in old(owned) && old(|systemd.script| >= 8 && GoesWell(systemd.script[..8], unit)) ==>
                !raised && !forced && systemd.script == old(systemd.script)[8..]
    {
      forced := false;
      if unit !in owned {
        return true, false;
      }
      var reply := systemd.Ask(StopUnit(unit));
      if reply.raises {
        return true, false;
      }
      var empty := WaitEmpty(unit);
      if empty.None? {
        return true, false;
      }
      if !empty.value {
        forced := true;
        reply := systemd.Ask(KillAll(unit));
        if reply.raises {
          return true, forced;
        }
      }
      empty := WaitEmpty(unit);
      if empty != Some(true) {
        return true, forced;
      }
      Remove(unit);
      raised := ForgetUnit();
    }

    method StopGracefully(unit: nat) returns (raised: bool)
      requires Valid()
      modifies this`owned, systemd
      ensures Keeps()
      ensures if unit in old(owned) then old(systemd.asked) + [KillMain(unit)] <= systemd.asked
              else systemd.asked == old(systemd.asked)
      ensures owned == old(owned) || (unit in old(owned) && owned == Without(old(owned), unit))
      ensures !raised ==> unit in old(owned) && owned == Without(old(owned), unit)
    {
      if unit !in owned {
        return true;
      }
      var reply := systemd.Ask(KillMain(unit));
      if reply.raises || !reply.yes {
        return true;
      }
      var empty := WaitEmpty(unit);
      if empty.None? {
        return true;
      }
      if !empty.value {
        reply := systemd.Ask(KillAll(unit));
        if !reply.raises {
          empty := WaitEmpty(unit);
        }
        return true;
      }
      Remove(unit);
      raised := ForgetUnit();
    }

    method FaultKill(unit: nat) returns (raised: bool)
      requires Valid()
      modifies this`owned, systemd
      ensures Keeps()
      ensures systemd.asked == old(systemd.asked) + if unit in old(owned) then [KillAll(unit)] else []
      ensures owned == old(owned) || (unit in old(owned) && owned == Without(old(owned), unit))
      ensures !raised ==> unit in old(owned) && owned == Without(old(owned), unit)
    {
      if unit !in owned {
        return true;
      }
      var reply := systemd.Ask(KillAll(unit));
      if reply.raises || !reply.yes {
        return true;
      }
      var empty := WaitEmpty(unit);
      if empty != Some(true) {
        return true;
      }
      Remove(unit);
      raised := ForgetUnit();
    }

    /** The four exchanges about a unit that is over go well. */
    predicate Exited(script: seq<Reply>) {
      && |script| >= 4 && !script[0].raises && script[0].yes && !script[1].raises && !script[2].raises
      && !script[3].raises && script[3].yes
    }

    /** It is not too late, the unit is not to be seen, its wrapper is over, and what is asked then goes well. */
    predicate OverAtOnce(script: seq<Reply>) {
      && |script| >= 8 && !script[0].raises && !script[0].yes
      && Unseen(script[1..]) && !script[3].raises && script[3].yes && Exited(script[4..])
    }

    /** The look at cgroup and main process finds no unit. */
    predicate Unseen(script: seq<Reply>) {
      && |script| >= 2 && !script[0].raises && !script[1].raises
      && !(script[0].yes && script[1].yes && script[1].pid >= 2)
    }

    /** A unit that is already over is adopted only when its cgroup is seen empty. */
    method CompletedIdentity(unit: nat) returns (raised: bool)
      requires Valid() && unit in launched && unit !in adopted
      modifies this`owned, this`adopted, systemd`counts, systemd`script
      ensures Keeps()
      ensures if raised then owned == old(owned) && adopted == old(adopted)
              else owned == old(owned) + [unit] && adopted == old(adopted) + {unit} && systemd.Count(unit) == 0
      ensures !raised <==> Exited(old(systemd.script)) && systemd.Count(unit) == 0
    {
      var exited := systemd.Exchange();
      if exited.raises || !exited.yes {
        return true;
      }
      var shown := systemd.Exchange();
      if shown.raises {
        return true;
      }
      var n := systemd.Processes(unit);
      if n != Some(0) {
        return true;
      }
      var proof := systemd.Exchange();
      if proof.raises || !proof.yes {
        return true;
      }
      Adopt(unit);
      raised := false;
    }

    /** One look at the unit's cgroup and main process. */
    method TryIdentity(unit: nat) returns (raised: bool, seen: bool)
      requires Valid() && unit in launched && unit !in adopted
      modifies this`owned, this`adopted, systemd`counts, systemd`script
      ensures Keeps() && !(raised && seen) && |systemd.script| <= |old(systemd.script)|
      ensures if seen then owned == old(owned) + [unit] && adopted == old(adopted) + {unit}
              else owned == old(owned) && adopted == old(adopted)
      ensures Unseen(old(systemd.script)) ==> !raised && !seen && systemd.script == old(systemd.script)[2..]
    {
      var group := systemd.Exchange();
      if group.raises {
        return true, false;
      }
      var main := systemd.Exchange();
      if main.raises {
        return true, false;
      }
      if !group.yes || !main.yes || main.pid < 2 {
        return false, false;
      }
      var resolved := systemd.Exchange();
      if resolved.raises {
        return true, false;
      }
      Adopt(unit);
      raised, seen := false, true;
    }

    method WaitForIdentity(unit: nat, hasWrapper: bool) returns (raised: bool)
      requires Valid() && unit in launched && unit !in adopted
      modifies this`owned, this`adopted, systemd`counts, systemd`script
      ensures Keeps()
      ensures if raised then owned == old(owned) && adopted == old(adopted)
              else owned == old(owned) + [unit] && adopted == old(adopted) + {unit}
      ensures old(systemd.script) == [] ==> raised && systemd.counts == old(systemd.counts)
      // A wrapper that is over when first looked for is adopted, if its cgroup is empty.
      ensures hasWrapper && OverAtOnce(old(systemd.script)) ==> (raised <==> systemd.Count(unit) != 0)
    {
      raised := true;
      while true
        invariant Keeps() && owned == old(owned) && adopted == old(adopted) && raised
        invariant hasWrapper && OverAtOnce(old(systemd.script)) ==> systemd.script == old(systemd.script)
        invariant old(systemd.script) == [] ==> systemd.script == [] && systemd.counts == old(systemd.counts)
        decreases |systemd.script|
      {
        var late := systemd.Exchange();
        if late.raises || late.yes {
          return;
        }
        var seen;
        raised, seen := TryIdentity(unit);
        if raised || seen {
          return;
        }
        raised := true;
        if hasWrapper {
          var over := systemd.Exchange();
          if over.raises {
            return;
          }
          if over.yes {
            raised := CompletedIdentity(unit);
            return;
          }
        }
        var failed := systemd.Exchange();
        if failed.raises || failed.yes {
          return;
        }
        var sleep := systemd.Exchange();
        if sleep.raises {
          return;
        }
      }
    }

    /** The next unit, and systemd asked to run it: whether it says so, or whether the call raised. */
    method LaunchNext() returns (reply: Reply, unit: nat)
      requires Valid()
      modifies this`counter, this`launched, systemd
      ensures Keeps() && launched == old(launched) + {unit} && unit !in old(launched)
      ensures systemd.asked == old(systemd.asked) + [RunUnit(unit)]
      ensures unit == counter == old(counter) + 1
      ensures (reply.raises <==> old(systemd.Refuses())) && (!reply.raises && reply.yes <==> old(systemd.Agrees()))
      ensures |old(systemd.script)| == 1 ==> systemd.script == []
      ensures old(systemd.script) != [] && unit in old(systemd.script)[0].counts ==>
                systemd.Count(unit) == old(systemd.script)[0].counts[unit]
    {
      counter := counter + 1;
      unit := counter;
      launched := launched + {unit};
      reply := systemd.Launch(unit);
    }

    /** start.  The unit is adopted or lost, and lost exactly when the launch or the wait failed. */
    method Start() returns (raised: bool, unit: nat, ghost loss: Option<Loss>)
      requires Valid()
      modifies this`owned, this`adopted, this`counter, this`launched, systemd
      ensures Keeps() && launched == old(launched) + {unit}
      ensures systemd.asked == old(systemd.asked) + [RunUnit(unit)]
      ensures if raised then owned == old(owned) && adopted == old(adopted)
              else owned == old(owned) + [unit] && adopted == old(adopted) + {unit}
      ensures unit == counter == old(counter) + 1
      ensures raised <==> loss.Some?
      ensures Lost() == old(Lost()) + if loss.Some? then {unit} else {}
      ensures loss == Some(LaunchFailed) <==> !old(systemd.Agrees())
      // With one exchange scripted, the launch is the last thing that goes right.
      ensures |old(systemd.script)| == 1 && unit in old(systemd.script)[0].counts ==>
                raised && systemd.Count(unit) == old(systemd.script)[0].counts[unit]
    {
      loss := None;
      var reply;
      reply, unit := LaunchNext();
      if reply.raises || !reply.yes {
        return true, unit, Some(LaunchFailed);
      }
      raised := WaitForIdentity(unit, false);
      if raised {
        loss := Some(WaitFailed);
      }
    }

    /** run_capture: what happens after an exception out of the launch, the wait or the command. */
    method Abandon(unit: nat)
      requires Valid()
      modifies this`owned, systemd
      ensures Keeps()
      ensures systemd.asked != old(systemd.asked) && old(systemd.asked) <= systemd.asked
      ensures systemd.asked[|old(systemd.asked)|] == if unit in old(owned) then StopUnit(unit) else KillAll(unit)
      ensures owned == old(owned) || (unit in old(owned) && owned == Without(old(owned), unit))
    {
      if unit in owned {
        var raised, forced := Stop(unit);
      } else {
        var kill := systemd.Ask(KillAll(unit));
      }
    }

    /** run_capture.  Its unit is lost exactly when the launch raised or the wait failed; whatever raises later,
        the unit was adopted and is owned still, or has no process. */
    method RunCapture() returns (raised: bool, unit: nat, ghost loss: Option<Loss>)
      requires Valid()
      modifies this`owned, this`adopted, this`counter, this`launched, systemd
      ensures Keeps() && launched == old(launched) + {unit}
      ensures old(systemd.asked) + [RunUnit(unit)] <= systemd.asked
      ensures unit == counter == old(counter) + 1
      ensures !raised ==> unit in adopted && unit !in owned && systemd.Count(unit) == 0
      ensures forall u | u in old(owned) :: u in owned
      ensures loss.Some? ==> raised && unit !in adopted
      ensures loss == Some(LaunchFailed) <==> old(systemd.Refuses())
      ensures Lost() == old(Lost()) + if loss.Some? then {unit} else {}
    {
      loss := None;
      var reply;
      reply, unit := LaunchNext();
      if reply.raises {
        return true, unit, Some(LaunchFailed);
      }
      var failed := WaitForIdentity(unit, true);
      if failed {
        Abandon(unit);
        return true, unit, Some(WaitFailed);
      }
      assert (old(owned) + [unit])[|old(owned)|] == unit;
      KeepsOthers(old(owned), unit);
      var output := systemd.Exchange();
      if output.raises {
        Abandon(unit);
        return true, unit, None;
      }
      if !output.yes {
        var error, forced := Stop(unit);
        return true, unit, None;
      }
      var left := systemd.Processes(unit);
      if left.None? {
        return true, unit, None;
      }
      if left.value > 0 {
        var error, forced := Stop(unit);
        return true, unit, None;
      }
      Remove(unit);
      raised := ForgetUnit();
      WithoutIs(old(owned) + [unit], unit);
      assert unit !in Elements(owned);
      assert unit in adopted - Elements(owned);
    }

    /** Taking the last unit off again leaves the others. */
    lemma KeepsOthers(before: seq<nat>, unit: nat)
      ensures forall u | u in before :: u != unit ==> u in Without(before + [unit], unit)
    {
      OthersStay(before + [unit], unit);
      assert forall u | u in before :: u in before + [unit];
    }

    /** stop_all: every owned unit is asked to stop, last adopted first, whatever becomes of the others; it
        returns normally only when nothing is owned any more and every unit ever adopted is empty, and always
        when every stop goes well. */
    method StopAll() returns (raised: bool)
      requires Valid()
      modifies this`owned, systemd
      ensures Keeps() && adopted == old(adopted)
      ensures Stops(systemd.asked) == Stops(old(systemd.asked)) + Reversed(old(owned))
      ensures !raised ==> owned == [] && Empty(adopted)
      // So everything ever launched is empty exactly when what was launched and not adopted is.
      ensures !raised ==> (Empty(launched) <==> Empty(Lost()))
      ensures Elements(owned) <= Elements(old(owned))
      ensures old(owned) == [] ==> !raised && systemd.counts == old(systemd.counts)
      ensures old(AllGoWell(systemd.script, Reversed(owned))) ==> !raised
    {
      var order := Reversed(owned);
      var failed := false;
      for i := 0 to |order|
        invariant Keeps() && adopted == old(adopted)
        invariant Stops(systemd.asked) == Stops(old(systemd.asked)) + order[..i]
        invariant Elements(owned) <= Elements(old(owned))
        invariant forall j :: i <= j < |order| ==> order[j] in owned
        invariant !failed ==> Elements(owned) == Elements(old(owned)) - Elements(order[..i])
        invariant old(owned) == [] ==> !failed && systemd.counts == old(systemd.counts)
        invariant old(AllGoWell(systemd.script, Reversed(owned))) ==>
                    !failed && systemd.script == old(systemd.script)[8 * i..]
      {
        assert order[..i + 1] == order[..i] + [order[i]];
        assert |old(systemd.script)| >= 8 * i + 8 ==>
                 old(systemd.script)[8 * i..][..8] == old(systemd.script)[8 * i..8 * i + 8];
        WithoutIs(owned, order[i]);
        OthersStay(owned, order[i]);
        ghost var before := systemd.asked;
        var error, forced := Stop(order[i]);
        StopsOfOne(before, order[i], forced);
        if error {
          failed := true;
        }
      }
      assert order[..|order|] == order;
      ReversedKeeps(old(owned));
      if failed || owned != [] {
        assert owned != [] ==> owned[0] in Elements(owned);
        return true;
      }
      raised := false;
      assert adopted - Elements(owned) == adopted;
    }
  }

  lemma ReversedKeeps<T(!new)>(s: seq<T>)
    ensures Elements(Reversed(s)) == Elements(s)
  {
    forall x | x in s ensures x in Reversed(s) {
      var i :| 0 <= i < |s| && s[i] == x;
      assert Reversed(s)[|s| - 1 - i] == x;
    }
  }

  /** A kill is no stop. */
  lemma StopsOfOne(before: seq<Request>, unit: nat, forced: bool)
    ensures Stops(before + [StopUnit(unit)] + if forced then [KillAll(unit)] else []) == Stops(before) + [unit]
  {
    var asked := before + [StopUnit(unit)];
    assert asked[..|asked| - 1] == before;
    if forced {
      assert (asked + [KillAll(unit)])[..|asked|] == asked;
    } else {
      assert asked + [] == asked;
    }
  }

  /** Eight replies for each of these stops, and all goes well. */
  predicate AllGoWell(script: seq<Reply>, order: seq<nat>) {
    && 8 * |order| <= |script|
    && forall i :: 0 <= i < |order| ==> GoesWell(script[8 * i..8 * i + 8], order[i])
  }

  lemma {:induction false} OthersStay<T(!new)>(s: seq<T>, x: T)
    ensures forall y | y in s :: y != x ==> y in Without(s, x)
  {
    if s != [] && s[0] != x {
      OthersStay(s[1..], x);
      assert Without(s, x)[1..] == Without(s[1..], x);
      assert forall y | y in s :: y == s[0] || y in s[1..];
      assert forall y | y in Without(s[1..], x) :: y in Without(s, x);
    }
  }

  datatype Action =
    | StartAction
    | CaptureAction
    | StopAction(unit: nat)
    | GracefulAction(unit: nat)
    | KillAction(unit: nat)

  /** One action: whether a unit was launched without being adopted. */
  method Perform(owner: SystemdUnitOwner, action: Action) returns (ghost lost: bool)
    requires owner.Valid()
    modifies owner, owner.systemd
    ensures owner.Valid()
    ensures owner.Lost() == old(owner.Lost()) + if lost then {owner.counter} else {}
    ensures lost ==> action.StartAction? || action.CaptureAction?
  {
    lost := false;
    match action
    case StartAction =>
      var raised, unit;
      ghost var loss;
      raised, unit, loss := owner.Start();
      lost := loss.Some?;
    case CaptureAction =>
      var raised, unit;
      ghost var loss;
      raised, unit, loss := owner.RunCapture();
      lost := loss.Some?;
    case StopAction(unit) => var raised, forced := owner.Stop(unit);
    case GracefulAction(unit) => var raised := owner.StopGracefully(unit);
    case KillAction(unit) => var raised := owner.FaultKill(unit);
  }

  /** Any actions in any order, each failing or not, and stop_all at the end.  When that returns, every unit ever
      launched is empty exactly when those that were lost are; if none was lost, all are. */
  method Serve(owner: SystemdUnitOwner, actions: seq<Action>) returns (raised: bool, ghost lost: seq<bool>)
    requires owner.Valid() && owner.launched == {}
    modifies owner, owner.systemd
    ensures owner.Valid() && |lost| == |actions|
    ensures !raised ==> (owner.Empty(owner.launched) <==> owner.Empty(owner.Lost()))
    ensures !raised && (forall i :: 0 <= i < |actions| ==> !lost[i]) ==> owner.Empty(owner.launched)
  {
    lost := [];
    for i := 0 to |actions|
      invariant owner.Valid() && |lost| == i
      invariant (forall j :: 0 <= j < i ==> !lost[j]) ==> owner.Lost() == {}
    {
      ghost var before := lost;
      ghost var one := Perform(owner, actions[i]);
      lost := lost + [one];
      assert forall j :: 0 <= j < i ==> lost[j] == before[j];
      assert lost[i] == one;
    }
    raised := owner.StopAll();
  }

  /** A unit that was launched but never adopted is not covered: here start raises, stop_all returns
      normally, and the unit still has a process. */
  method LaunchedButNotAdopted() returns (owner: SystemdUnitOwner, raised: bool, stopRaised: bool)
    ensures fresh(owner) && raised && !stopRaised && owner.systemd.Count(owner.counter) == 1
  {
    var systemd := new Systemd([Reply(false, true, 0, map[1 := 1])]);
    owner := new SystemdUnitOwner(systemd);
    var unit;
    ghost var loss;
    raised, unit, loss := owner.Start();
    stopRaised := owner.StopAll();
  }
}
