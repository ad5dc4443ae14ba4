/** The GCP cost bounds: what the estimate reserves, against what the planned machines can cost.
    Amounts in dollars, times in hours, exactly. */
module CostBound {
  import opened Prelude
  import opened GcpPlans

  const MACHINE_HOURLY: real := 0.473212
  const G2_MACHINE_HOURLY: real := 0.853624312
  const T4_HOURLY: real := 0.35
  const WINDOWS_VCPU_HOURLY: real := 0.046
  const MACHINE_VCPUS: real := 8.0
  const DISK_GIB: real := 150.0
  const ROUTE_DISK_GIB: real := 200.0
  const DISK_GIB_HOURLY: real := 0.000054795
  const BALANCED_DISK_GIB_HOURLY: real := 0.000136986
  const NAT_IP_HOURLY: real := 0.005
  const HEADROOM: real := 1.25
  const CONTINGENCY: real := 10.0
  const MAX_HOURS: real := 14.0

  datatype Shape = N1T4 | G2L4

  datatype Profile = Profile(windows: bool, cuda: bool)

  /** windows-cpu, linux-cpu, windows-cuda, linux-cuda. */
  const PROFILES: seq<Profile> :=
    [Profile(true, false), Profile(false, false), Profile(true, true), Profile(false, true)]

  // ----- The estimate -----

  function CudaCount(profiles: seq<Profile>): nat {
    if profiles == [] then 0 else (if profiles[0].cuda then 1 else 0) + CudaCount(profiles[1..])
  }

  function WindowsCount(profiles: seq<Profile>): nat {
    if profiles == [] then 0 else (if profiles[0].windows then 1 else 0) + WindowsCount(profiles[1..])
  }

  /** The compute rate as the estimate adds it up: by kind of charge, times how many. */
  function ComputeHourly(profiles: seq<Profile>, shape: Shape): real {
    var cuda, windows, all := CudaCount(profiles) as real, WindowsCount(profiles) as real, |profiles| as real;
    var cpu := all - cuda;
    var machines := if shape == N1T4 then MACHINE_HOURLY * all else MACHINE_HOURLY * cpu + G2_MACHINE_HOURLY * cuda;
    var gpus := if shape == N1T4 then T4_HOURLY * cuda else 0.0;
    var licences := WINDOWS_VCPU_HOURLY * MACHINE_VCPUS * windows;
    var standard, balanced := if shape == N1T4 then all else cpu, if shape == N1T4 then 0.0 else cuda;
    machines + gpus + licences + DISK_GIB * (DISK_GIB_HOURLY * standard + BALANCED_DISK_GIB_HOURLY * balanced)
  }

  /** _gcp_cost: the reserved maximum, in whole dollars, or an error. */
  function FleetMaximum(hours: real, splitRegion: bool, shape: Shape): Option<int> {
    if hours <= 0.0 || hours > MAX_HOURS then None
    else
      var nat_ := NAT_IP_HOURLY * (if splitRegion then 2.0 else 1.0);
      var variable := ComputeHourly(PROFILES, shape) * hours + nat_ * (hours * |PROFILES| as real);
      Some(Ceiling(variable * HEADROOM + CONTINGENCY))
  }

  /** _gcp_public_route_cost. */
  function RouteMaximum(hours: real): Option<int> {
    if hours <= 0.0 || hours > MAX_HOURS then None
    else Some(Ceiling(RouteHourly() * hours * HEADROOM + CONTINGENCY))
  }

  function RouteHourly(): real {
    G2_MACHINE_HOURLY + ROUTE_DISK_GIB * BALANCED_DISK_GIB_HOURLY + NAT_IP_HOURLY
  }

  // ----- The plan -----

  /** A host as the plan creates it. */
  datatype Host = Host(g2: bool, t4: bool, windows: bool, balancedDisk: bool)

  function PlannedHost(p: Profile, shape: Shape): Host {
    var g2 := p.cuda && shape == G2L4;
    Host(g2, p.cuda && !g2, p.windows, g2)
  }

  /** What one host costs an hour. */
  function HostHourly(h: Host): real {
    (if h.g2 then G2_MACHINE_HOURLY else MACHINE_HOURLY)
    + (if h.t4 then T4_HOURLY else 0.0)
    + (if h.windows then WINDOWS_VCPU_HOURLY * MACHINE_VCPUS else 0.0)
    + DISK_GIB * (if h.balancedDisk then BALANCED_DISK_GIB_HOURLY else DISK_GIB_HOURLY)
  }

  function PlannedRates(profiles: seq<Profile>, shape: Shape): (rates: seq<real>)
    ensures |rates| == |profiles| && forall i :: 0 <= i < |rates| ==> rates[i] >= 0.0
  {
    if profiles == [] then [] else [HostHourly(PlannedHost(profiles[0], shape))] + PlannedRates(profiles[1..], shape)
  }

  /** For any list of profiles, the rates of the hosts the plan creates add up to the estimate's rate. */
  lemma {:induction false} RatesAgree(profiles: seq<Profile>, shape: Shape)
    ensures Sum(PlannedRates(profiles, shape)) == ComputeHourly(profiles, shape)
  {
    if profiles != [] {
      RatesAgree(profiles[1..], shape);
    }
  }

  /** --max-run-duration of the fleet's hosts, in seconds, rounded up; of the route's, rounded down. */
  function FleetSeconds(hours: real): int {
    Ceiling(hours * 3600.0)
  }

  function RouteSeconds(hours: real): int {
    (hours * 3600.0).Floor
  }

  // ----- What the estimate is -----

  /** A whole number that covers an amount, where the one before does not. */
  predicate IsLeastCovering(whole: int, amount: real) {
    whole as real - 1.0 < amount <= whole as real
  }

  /** What the planned fleet costs in these hours, each host of it up in turn and an address in each region all the
      time. */
  function PlannedCost(hours: real, regions: nat, shape: Shape): real {
    Sum(PlannedRates(PROFILES, shape)) * hours
    + regions as real * (NAT_IP_HOURLY * (|PROFILES| as real * hours))
  }

  /** The fleet's reserved maximum is the least whole amount that covers five fourths of what the planned hosts and the
      planned regions' addresses cost in those hours, plus ten. */
  lemma FleetMaximumIsLeast(hours: real, splitRegion: bool, shape: Shape, prefix: string)
    ensures FleetMaximum(hours, splitRegion, shape).Some? <==> 0.0 < hours <= 14.0
    ensures FleetMaximum(hours, splitRegion, shape).Some? ==>
              IsLeastCovering(
                FleetMaximum(hours, splitRegion, shape).value,
                PlannedCost(hours, |FleetOf(prefix, splitRegion).regions|, shape) * 1.25 + 10.0)
  {
    RatesAgree(PROFILES, shape);
    var regions := |FleetOf(prefix, splitRegion).regions|;
    assert regions == if splitRegion then 2 else 1;
    var nat_ := NAT_IP_HOURLY * (if splitRegion then 2.0 else 1.0);
    AddressCost(regions as real, hours);
    assert nat_ * (hours * |PROFILES| as real) == regions as real * (NAT_IP_HOURLY * (|PROFILES| as real * hours));
  }

  lemma AddressCost(regions: real, hours: real)
    ensures NAT_IP_HOURLY * regions * (hours * 4.0) == regions * (NAT_IP_HOURLY * (4.0 * hours))
  {
  }

  /** And the route's that of its one host, disk and address. */
  lemma RouteMaximumIsLeast(hours: real)
    ensures RouteMaximum(hours).Some? <==> 0.0 < hours <= 14.0
    ensures RouteMaximum(hours).Some? ==>
              IsLeastCovering(
                RouteMaximum(hours).value,
                (G2_MACHINE_HOURLY * hours + 200.0 * (BALANCED_DISK_GIB_HOURLY * hours) + NAT_IP_HOURLY * hours) * 1.25
                + 10.0)
  {
    assert RouteHourly() * hours ==
      G2_MACHINE_HOURLY * hours + 200.0 * (BALANCED_DISK_GIB_HOURLY * hours) + NAT_IP_HOURLY * hours;
  }

  /** The estimates the repository's tests state. */
  lemma StatedEstimates()
    ensures FleetMaximum(14.0, false, N1T4) == Some(70)
    ensures FleetMaximum(13.5, true, G2L4) == Some(69) && FleetMaximum(14.0, true, G2L4) == Some(72)
    ensures RouteMaximum(14.0) == Some(26)
  {
    ProfileCounts(N1T4);
  }

  // ----- What a run can cost -----

  /** The compute cost of hosts at these hourly rates that lived so many seconds each. */
  function LivedCost(rates: seq<real>, seconds: seq<real>): real
    requires |seconds| == |rates|
  {
    if rates == [] then 0.0 else rates[0] * seconds[0] / 3600.0 + LivedCost(rates[1..], seconds[1..])
  }

  function Sum(seconds: seq<real>): real {
    if seconds == [] then 0.0 else seconds[0] + Sum(seconds[1..])
  }

  /** No host outlives the limit. */
  predicate Within(seconds: seq<real>, limit: real) {
    forall i :: 0 <= i < |seconds| ==> 0.0 <= seconds[i] <= limit
  }

  lemma {:induction false} LivedCostBound(rates: seq<real>, seconds: seq<real>, limit: real)
    requires |seconds| == |rates| && Within(seconds, limit)
    requires forall i :: 0 <= i < |rates| ==> rates[i] >= 0.0
    ensures LivedCost(rates, seconds) <= Sum(rates) * limit / 3600.0
  {
    if rates != [] {
      LivedCostBound(rates[1..], seconds[1..], limit);
      OneMoreHost(rates[0], Sum(rates[1..]), seconds[0], limit, LivedCost(rates[1..], seconds[1..]));
    }
  }

  lemma {:induction false} SumBound(seconds: seq<real>, limit: real)
    requires Within(seconds, limit)
    ensures 0.0 <= Sum(seconds) <= limit * |seconds| as real
  {
    if seconds != [] {
      SumBound(seconds[1..], limit);
      OneMoreLimit(limit, |seconds| as real);
      assert |seconds[1..]| as real == |seconds| as real - 1.0;
    }
  }

  lemma OneMoreHost(rate: real, rest: real, s: real, limit: real, lived: real)
    requires rate >= 0.0 && s <= limit && lived <= rest * limit / 3600.0
    ensures rate * s / 3600.0 + lived <= (rate + rest) * limit / 3600.0
  {
    Times(rate, s, limit);
    assert (rate + rest) * limit == rate * limit + rest * limit;
  }

  lemma OneMoreLimit(limit: real, n: real)
    ensures limit + limit * (n - 1.0) == limit * n
  {
  }

  lemma Times(rate: real, s: real, limit: real)
    requires rate >= 0.0 && s <= limit
    ensures rate * s <= rate * limit
  {
  }

  lemma ProfileCounts(shape: Shape)
    ensures CudaCount(PROFILES) == 2 && WindowsCount(PROFILES) == 2
    ensures 2.0 <= ComputeHourly(PROFILES, shape) <= 5.0
  {
    assert PROFILES[1..] == [PROFILES[1], PROFILES[2], PROFILES[3]];
    assert PROFILES[1..][1..] == [PROFILES[2], PROFILES[3]];
    assert PROFILES[1..][1..][1..] == [PROFILES[3]];
    assert PROFILES[1..][1..][1..][1..] == [];
  }

  /** A run that has one host up at a time, none longer than its rounded-up limit, and its NAT addresses
      no longer than its hosts together, costs no more than what is reserved for it. */
  lemma FleetIsCovered(hours: real, splitRegion: bool, shape: Shape, seconds: seq<real>, natSeconds: real)
    requires 0.0 < hours <= MAX_HOURS && |seconds| == |PROFILES|
    requires Within(seconds, FleetSeconds(hours) as real) && 0.0 <= natSeconds <= Sum(seconds)
    ensures var nat_ := NAT_IP_HOURLY * (if splitRegion then 2.0 else 1.0);
            LivedCost(PlannedRates(PROFILES, shape), seconds) + nat_ * natSeconds / 3600.0
              <= FleetMaximum(hours, splitRegion, shape).value as real
  {
    var nat_ := NAT_IP_HOURLY * (if splitRegion then 2.0 else 1.0);
    RatesAgree(PROFILES, shape);
    ProfileCounts(shape);
    SessionsAreCovered(PlannedRates(PROFILES, shape), nat_, hours, seconds, natSeconds);
  }

  lemma SessionsAreCovered(rates: seq<real>, nat_: real, hours: real, seconds: seq<real>, natSeconds: real)
    requires |rates| == |seconds| == 4 && (forall i :: 0 <= i < 4 ==> rates[i] >= 0.0) && 0.0 <= Sum(rates) <= 5.0
    requires 0.0 <= nat_ <= 0.01 && 0.0 < hours
    requires Within(seconds, FleetSeconds(hours) as real) && 0.0 <= natSeconds <= Sum(seconds)
    ensures LivedCost(rates, seconds) + nat_ * natSeconds / 3600.0
              <= (Sum(rates) * hours + nat_ * (hours * 4.0)) * HEADROOM + CONTINGENCY
  {
    var limit := FleetSeconds(hours) as real;
    LivedCostBound(rates, seconds, limit);
    SumBound(seconds, limit);
    Totals(Sum(rates), nat_, hours, limit, LivedCost(rates, seconds), natSeconds);
  }

  lemma Totals(rate: real, nat_: real, hours: real, limit: real, lived: real, natSeconds: real)
    requires 0.0 <= rate <= 5.0 && 0.0 <= nat_ <= 0.01 && 0.0 < hours && 0.0 <= limit <= hours * 3600.0 + 1.0
    requires lived <= rate * limit / 3600.0 && natSeconds <= limit * 4.0
    ensures lived + nat_ * natSeconds / 3600.0 <= (rate * hours + nat_ * (hours * 4.0)) * HEADROOM + CONTINGENCY
  {
    Times(nat_, natSeconds, limit * 4.0);
    CoveredBy(rate, nat_, hours, limit);
  }

  /** The arithmetic of it: rounding a limit up by less than a second costs less than the contingency. */
  lemma CoveredBy(rate: real, nat_: real, hours: real, limit: real)
    requires 0.0 <= rate <= 5.0 && 0.0 <= nat_ <= 0.01 && 0.0 < hours && 0.0 <= limit <= hours * 3600.0 + 1.0
    ensures rate * limit / 3600.0 + nat_ * (limit * 4.0) / 3600.0
              <= (rate * hours + nat_ * (hours * 4.0)) * HEADROOM + CONTINGENCY
  {
    var total := rate + nat_ * 4.0;
    Together(rate, nat_, limit);
    Together(rate, nat_, hours);
    Times(total, limit, hours * 3600.0 + 1.0);
    Spread(total, hours);
    Times(total, 0.0, hours);
    Slack(total * limit, total * hours, total);
  }

  lemma Slack(used: real, estimated: real, total: real)
    requires used <= estimated * 3600.0 + total && 0.0 <= estimated && 0.0 <= total <= 5.04
    ensures used / 3600.0 <= estimated * HEADROOM + CONTINGENCY
  {
  }

  lemma Together(rate: real, nat_: real, t: real)
    ensures rate * t + nat_ * (t * 4.0) == (rate + nat_ * 4.0) * t
  {
  }

  lemma Spread(total: real, hours: real)
    ensures total * (hours * 3600.0 + 1.0) == total * hours * 3600.0 + total
  {
  }

  /** From four seconds on, the headroom covers the rounding without the contingency. */
  lemma HeadroomCoversRounding(rate: real, hours: real)
    requires rate >= 0.0 && hours * 3600.0 >= 4.0
    ensures rate * FleetSeconds(hours) as real / 3600.0 <= rate * hours * HEADROOM
  {
    Times(rate, FleetSeconds(hours) as real, hours * 3600.0 * HEADROOM);
    assert rate * (hours * 3600.0 * HEADROOM) == rate * hours * HEADROOM * 3600.0;
  }

  /** The route host, its disk and its address, for at most the rounded-down limit. */
  lemma RouteIsCovered(hours: real, seconds: real)
    requires 0.0 < hours <= MAX_HOURS && 0.0 <= seconds <= RouteSeconds(hours) as real
    ensures RouteHourly() * seconds / 3600.0 <= RouteHourly() * hours
    ensures RouteHourly() * seconds / 3600.0 <= RouteMaximum(hours).value as real - CONTINGENCY
  {
    Times(RouteHourly(), seconds, hours * 3600.0);
    assert RouteHourly() * (hours * 3600.0) == RouteHourly() * hours * 3600.0;
    Times(RouteHourly(), 0.0, hours);
  }
}
