/** GPU memory of a public-route host: attributing what each process holds to the two routes. */
module GpuAttribution {
  import opened Prelude
  import opened RouteSamples

  /** One line of the process inventory. */
  datatype Usage = Usage(pid: nat, size: nat)

  datatype Route = Route(role: Role, running: bool, pids: set<nat>)

  /** A dictionary by process, in the order the processes were first seen. */
  ghost predicate Table(table: seq<Usage>) {
    forall i, j :: 0 <= i < j < |table| ==> table[i].pid != table[j].pid
  }

  /** gpu_processes[pid] = size. */
  function Put(table: seq<Usage>, u: Usage): (r: seq<Usage>) {
    if table == [] then [u]
    else if table[0].pid == u.pid then [u] + table[1..]
    else [table[0]] + Put(table[1..], u)
  }

  function TableOf(lines: seq<Usage>): seq<Usage> {
    if lines == [] then [] else Put(TableOf(lines[..|lines| - 1]), lines[|lines| - 1])
  }

  lemma {:induction false} PutKeepsTable(table: seq<Usage>, u: Usage)
    requires Table(table)
    ensures Table(Put(table, u))
    ensures forall v | v in Put(table, u) :: v == u || v in table
    ensures forall v | v in table :: v.pid != u.pid ==> v in Put(table, u)
    ensures u in Put(table, u)
  {
    if table != [] && table[0].pid != u.pid {
      PutKeepsTable(table[1..], u);
      var r := Put(table[1..], u);
      assert Put(table, u) == [table[0]] + r;
      forall i | 0 <= i < |r| ensures r[i].pid != table[0].pid {
        assert r[i] in r;
      }
      assert table == [table[0]] + table[1..];
    } else if table != [] {
      assert forall v | v in table[1..] :: v in table;
      assert table == [table[0]] + table[1..];
    }
  }

  /** What the processes satisfying p hold together. */
  function Sum(table: seq<Usage>, p: nat -> bool): nat {
    if table == [] then 0 else (if p(table[0].pid) then table[0].size else 0) + Sum(table[1..], p)
  }

  function Total(table: seq<Usage>): nat {
    Sum(table, _ => true)
  }

  function DeviceBytes(table: seq<Usage>, route: Route): nat {
    if route.running then Sum(table, (pid: nat) => pid in route.pids) else 0
  }

  predicate Attributed(routes: seq<Route>, pid: nat) {
    exists i :: 0 <= i < |routes| && routes[i].running && pid in routes[i].pids
  }

  function AllDeviceBytes(table: seq<Usage>, routes: seq<Route>): nat {
    if routes == [] then 0 else DeviceBytes(table, routes[0]) + AllDeviceBytes(table, routes[1..])
  }

  function Unassigned(table: seq<Usage>, routes: seq<Route>): nat {
    Sum(table, (pid: nat) => !Attributed(routes, pid))
  }

  datatype DeviceSample = DeviceSample(device: seq<nat>, unattributed: nat, combined: nat)

  /** The device part of _resource_sample. */
  method SampleDevices(lines: seq<Usage>, routes: seq<Route>) returns (sample: DeviceSample)
    ensures var table := TableOf(lines);
            && |sample.device| == |routes|
            && (forall i :: 0 <= i < |routes| ==> sample.device[i] == DeviceBytes(table, routes[i]))
            && sample.unattributed == Unassigned(table, routes)
            && sample.combined == AllDeviceBytes(table, routes) + Unassigned(table, routes)
  {
    var table: seq<Usage> := [];
    for i := 0 to |lines|
      invariant table == TableOf(lines[..i])
    {
      assert lines[..i + 1][..i] == lines[..i];
      table := Put(table, lines[i]);
    }
    assert lines[..|lines|] == lines;
    var device: seq<nat>, attributed: set<nat>, total := [], {}, 0;
    for i := 0 to |routes|
      invariant |device| == i && forall j :: 0 <= j < i ==> device[j] == DeviceBytes(table, routes[j])
      invariant total + AllDeviceBytes(table, routes[i..]) == AllDeviceBytes(table, routes)
      invariant forall pid :: pid in attributed <==> Attributed(routes[..i], pid)
    {
      AttributedStep(routes, i);
      assert routes[i..][0] == routes[i] && routes[i..][1..] == routes[i + 1..];
      if routes[i].running {
        attributed := attributed + routes[i].pids;
      }
      device := device + [DeviceBytes(table, routes[i])];
      total := total + device[i];
    }
    assert routes[..|routes|] == routes;
    var unattributed := Sum(table, (pid: nat) => pid !in attributed);
    SumCongruent(table, (pid: nat) => pid !in attributed, (pid: nat) => !Attributed(routes, pid));
    sample := DeviceSample(device, unattributed, total + unattributed);
  }

  lemma AttributedStep(routes: seq<Route>, i: nat)
    requires i < |routes|
    ensures forall pid :: Attributed(routes[..i + 1], pid) <==>
              Attributed(routes[..i], pid) || (routes[i].running && pid in routes[i].pids)
  {
    forall pid
      ensures Attributed(routes[..i + 1], pid) <==>
                Attributed(routes[..i], pid) || (routes[i].running && pid in routes[i].pids)
    {
      if Attributed(routes[..i], pid) {
        var j :| 0 <= j < i && routes[..i][j].running && pid in routes[..i][j].pids;
        assert routes[..i + 1][j] == routes[..i][j];
      }
      if Attributed(routes[..i + 1], pid) {
        var j :| 0 <= j < i + 1 && routes[..i + 1][j].running && pid in routes[..i + 1][j].pids;
        assert j < i ==> routes[..i][j] == routes[..i + 1][j];
      }
      if routes[i].running && pid in routes[i].pids {
        assert routes[..i + 1][i] == routes[i];
      }
    }
  }

  lemma {:induction false} SumCongruent(table: seq<Usage>, p: nat -> bool, q: nat -> bool)
    requires forall pid :: p(pid) == q(pid)
    ensures Sum(table, p) == Sum(table, q)
  {
    if table != [] {
      SumCongruent(table[1..], p, q);
    }
  }

  // ----- Conservation -----

  /** How many running routes claim a process. */
  function Claims(routes: seq<Route>, pid: nat): nat {
    if routes == [] then 0
    else (if routes[0].running && pid in routes[0].pids then 1 else 0) + Claims(routes[1..], pid)
  }

  lemma {:induction false} ClaimedIsAttributed(routes: seq<Route>, pid: nat)
    ensures Claims(routes, pid) > 0 <==> Attributed(routes, pid)
  {
    if routes != [] {
      ClaimedIsAttributed(routes[1..], pid);
      if Attributed(routes[1..], pid) {
        var i :| 0 <= i < |routes[1..]| && routes[1..][i].running && pid in routes[1..][i].pids;
        assert routes[i + 1].running && pid in routes[i + 1].pids;
      }
      if Attributed(routes, pid) {
        var i :| 0 <= i < |routes| && routes[i].running && pid in routes[i].pids;
        assert i > 0 ==> routes[1..][i - 1] == routes[i];
      }
      if routes[0].running && pid in routes[0].pids {
        assert Attributed(routes, pid);
      }
    }
  }

  lemma {:induction false} OneProcessMore(u: Usage, rest: seq<Usage>, routes: seq<Route>)
    ensures AllDeviceBytes([u] + rest, routes) == u.size * Claims(routes, u.pid) + AllDeviceBytes(rest, routes)
  {
    assert ([u] + rest)[1..] == rest;
    if routes != [] {
      OneProcessMore(u, rest, routes[1..]);
      var claimed := if routes[0].running && u.pid in routes[0].pids then 1 else 0;
      assert u.size * (claimed + Claims(routes[1..], u.pid)) == u.size * claimed + u.size * Claims(routes[1..], u.pid);
    }
  }

  /** What is counted of one process. */
  function Counted(u: Usage, routes: seq<Route>): nat {
    u.size * Claims(routes, u.pid) + (if Claims(routes, u.pid) == 0 then u.size else 0)
  }

  lemma CountedOnce(u: Usage, routes: seq<Route>)
    ensures Counted(u, routes) >= u.size
    ensures Counted(u, routes) == u.size <==> u.size == 0 || Claims(routes, u.pid) <= 1
  {
    var c := Claims(routes, u.pid);
    if c >= 2 && u.size > 0 {
      assert u.size * c >= u.size * 2;
    }
  }

  /** A process counted twice: it holds memory, and two running routes claim it. */
  ghost predicate SharedBetween(table: seq<Usage>, routes: seq<Route>) {
    exists u :: u in table && u.size > 0 && Claims(routes, u.pid) > 1
  }

  /** No byte is lost: the combined figure is at least what the table holds, and equal exactly when no
      process that holds memory is claimed by two running routes. */
  lemma {:induction false} BytesAreConserved(table: seq<Usage>, routes: seq<Route>)
    ensures AllDeviceBytes(table, routes) + Unassigned(table, routes) >= Total(table)
    ensures AllDeviceBytes(table, routes) + Unassigned(table, routes) == Total(table) <==> !SharedBetween(table, routes)
  {
    if table == [] {
      NothingHeld(routes);
    } else {
      var u, rest := table[0], table[1..];
      assert table == [u] + rest;
      BytesAreConserved(rest, routes);
      OneProcessMore(u, rest, routes);
      ClaimedIsAttributed(routes, u.pid);
      CountedOnce(u, routes);
      assert SharedBetween(table, routes) <==>
        (u.size > 0 && Claims(routes, u.pid) > 1) || SharedBetween(rest, routes) by {
        assert forall v :: v in table <==> v == u || v in rest;
      }
    }
  }

  lemma {:induction false} NothingHeld(routes: seq<Route>)
    ensures AllDeviceBytes([], routes) == 0
  {
    if routes != [] {
      NothingHeld(routes[1..]);
    }
  }

  /** Routes that share no process share none that holds memory. */
  lemma {:induction false} DisjointRoutesClaimOnce(routes: seq<Route>, pid: nat)
    requires forall i, j :: 0 <= i < j < |routes| ==> routes[i].pids !! routes[j].pids
    ensures Claims(routes, pid) <= 1
  {
    if routes != [] {
      DisjointRoutesClaimOnce(routes[1..], pid);
      if routes[0].running && pid in routes[0].pids {
        ClaimedIsAttributed(routes[1..], pid);
        assert forall i :: 0 < i < |routes| ==> routes[0].pids !! routes[i].pids;
      }
    }
  }

  lemma {:induction false} NothingLeftOver(table: seq<Usage>, p: nat -> bool, u: Usage)
    requires Sum(table, p) == 0 && u in table && p(u.pid)
    ensures u.size == 0
  {
    if table[0] != u {
      NothingLeftOver(table[1..], p, u);
    }
  }

  /** What an accepted sample means for the host it was taken of: the processes together hold no more
      than the combined ceiling, and each that holds any belongs to a running route. */
  lemma AcceptedSampleMeans(lines: seq<Usage>, routes: seq<Route>, payload: ResourcePayload, ceilings: Ceilings)
    requires ValidateResources(payload, ceilings).Some?
    requires payload.values[Unattributed] == Unassigned(TableOf(lines), routes)
    requires payload.values[Combined] == AllDeviceBytes(TableOf(lines), routes) + Unassigned(TableOf(lines), routes)
    ensures Total(TableOf(lines)) <= ceilings.combined * GIB
    ensures forall u | u in TableOf(lines) :: u.size > 0 ==> Attributed(routes, u.pid)
  {
    var table := TableOf(lines);
    assert METRICS[0] == Unattributed && METRICS[1] == Combined;
    BytesAreConserved(table, routes);
    forall u | u in table && !Attributed(routes, u.pid) ensures u.size == 0 {
      NothingLeftOver(table, (pid: nat) => !Attributed(routes, pid), u);
    }
  }

  // ----- Repeated lines -----

  function Held(table: seq<Usage>, pid: nat): nat {
    if table == [] then 0 else (if table[0].pid == pid then table[0].size else 0) + Held(table[1..], pid)
  }

  lemma {:induction false} HeldByNone(table: seq<Usage>, pid: nat)
    requires forall i :: 0 <= i < |table| ==> table[i].pid != pid
    ensures Held(table, pid) == 0
  {
    if table != [] {
      HeldByNone(table[1..], pid);
    }
  }

  lemma {:induction false} PutReplaces(table: seq<Usage>, u: Usage)
    requires Table(table)
    ensures Total(Put(table, u)) + Held(table, u.pid) == Total(table) + u.size
  {
    if table == [] {
      assert [u][1..] == [];
    } else if table[0].pid == u.pid {
      assert ([u] + table[1..])[1..] == table[1..];
      HeldByNone(table[1..], u.pid);
    } else {
      PutReplaces(table[1..], u);
      assert Put(table, u)[1..] == Put(table[1..], u);
    }
  }

  /** What later lines of the same process have replaced. */
  function Overwritten(lines: seq<Usage>): nat {
    if lines == [] then 0
    else
      var init, last := lines[..|lines| - 1], lines[|lines| - 1];
      Overwritten(init) + Held(TableOf(init), last.pid)
  }

  lemma {:induction false} TableOfIsTable(lines: seq<Usage>)
    ensures Table(TableOf(lines))
  {
    if lines != [] {
      TableOfIsTable(lines[..|lines| - 1]);
      PutKeepsTable(TableOf(lines[..|lines| - 1]), lines[|lines| - 1]);
    }
  }

  /** The lines add up to the table and what was overwritten: a process listed twice is undercounted by
      its earlier line, and by nothing exactly when that line was zero. */
  lemma {:induction false} LinesAgainstTable(lines: seq<Usage>)
    ensures Total(TableOf(lines)) + Overwritten(lines) == Total(lines)
  {
    if lines != [] {
      var init, last := lines[..|lines| - 1], lines[|lines| - 1];
      LinesAgainstTable(init);
      TableOfIsTable(init);
      PutReplaces(TableOf(init), last);
      TotalOfAppend(init, last);
      assert lines == init + [last];
    }
  }

  /** An inventory with two lines of process 7: five bytes are not in the table, and not in the combined figure of a
      host whose one running route has that process. */
  lemma TwoLinesOfOneProcess()
    ensures var lines := [Usage(7, 5), Usage(7, 2)];
            var routes := [Route(Primary, true, {7})];
            && Total(lines) == 7 && TableOf(lines) == [Usage(7, 2)]
            && AllDeviceBytes(TableOf(lines), routes) + Unassigned(TableOf(lines), routes) == 2
  {
    var lines := [Usage(7, 5), Usage(7, 2)];
    assert lines[..1] == [Usage(7, 5)] && lines[..1][..0] == [];
    assert TableOf(lines[..1]) == [Usage(7, 5)] by {
      assert TableOf([]) == [];
      assert lines[..1][0] == Usage(7, 5);
    }
    var table, routes := [Usage(7, 2)], [Route(Primary, true, {7})];
    assert [Usage(7, 2)] + [Usage(7, 5)][1..] == table;
    assert Attributed(routes, 7) by {
      assert routes[0].running && 7 in routes[0].pids;
    }
    assert routes[1..] == [] && table[1..] == [] && lines[1..] == [Usage(7, 2)] && lines[1..][1..] == [];
  }

  lemma {:induction false} TotalOfAppend(lines: seq<Usage>, u: Usage)
    ensures Total(lines + [u]) == Total(lines) + u.size
  {
    if lines == [] {
      assert [] + [u] == [u] && [u][1..] == [];
    } else {
      assert (lines + [u])[1..] == lines[1..] + [u];
      TotalOfAppend(lines[1..], u);
    }
  }

  lemma {:induction false} PutIsAppend(table: seq<Usage>, u: Usage)
    requires forall i :: 0 <= i < |table| ==> table[i].pid != u.pid
    ensures Put(table, u) == table + [u]
  {
    if table != [] {
      PutIsAppend(table[1..], u);
    }
  }

  /** With one line a process, nothing is lost. */
  lemma {:induction false} DistinctLinesAreKept(lines: seq<Usage>)
    requires Table(lines)
    ensures TableOf(lines) == lines
  {
    if lines != [] {
      DistinctLinesAreKept(lines[..|lines| - 1]);
      PutIsAppend(lines[..|lines| - 1], lines[|lines| - 1]);
    }
  }
}
