/** Health and resource samples of a public-route run: when one is accepted, and what a whole run of
    accepted samples amounts to. */
module RouteSamples {
  import opened Prelude

  const COUNTERS: nat := 6
  const MAX_COUNTER: int := 0x7FFF_FFFF_FFFF_FFFF

  // In microseconds.
  const HEALTH_FRESHNESS: int := 330_000_000
  const FUTURE_TOLERANCE: int := 5_000_000

  const GIB: nat := 0x4000_0000

  datatype Role = Primary | Standby

  datatype Metric = Device(role: Role) | Unattributed | Combined | HostMemory | RouteStorage | CombinedLogs

  const METRICS: seq<Metric> :=
    [Unattributed, Combined, HostMemory, RouteStorage, CombinedLogs, Device(Primary), Device(Standby)]

  /** A worker's health document as it arrives.  The schema, identity, span and type checks are one
      flag; so are the eight ways of being unhealthy. */
  datatype HealthPayload = HealthPayload(
    identified: bool, observedAt: Option<int>, counters: seq<int>, healthy: bool)

  /** What the next sample is compared with. */
  datatype Health = Health(observedAt: int, counters: seq<int>)

  datatype ResourcePayload = ResourcePayload(complete: bool, values: map<Metric, int>, restarts: map<Role, int>)

  /** The acknowledgement of the host's health action, with the wall clock read before asking for it. */
  datatype HealthReply = HealthReply(
    now: int,
    shaped: bool,
    primary: Option<HealthPayload>,
    standby: Option<HealthPayload>,
    continuity: bool,
    resources: ResourcePayload)

  datatype Snapshot = Snapshot(primary: Option<Health>, standby: Option<Health>) {
    function Of(role: Role): Option<Health> {
      if role.Primary? then primary else standby
    }
  }

  datatype Accepted = Accepted(snapshot: Snapshot, values: map<Metric, int>)

  /** Operating ceilings in GiB; nothing may be unattributed. */
  datatype Ceilings = Ceilings(
    primary: nat, standby: nat, combined: nat, hostMemory: nat, routeStorage: nat, combinedLogs: nat)
  {
    function For(m: Metric): nat {
      match m
      case Device(Primary) => primary * GIB
      case Device(Standby) => standby * GIB
      case Unattributed => 0
      case Combined => combined * GIB
      case HostMemory => hostMemory * GIB
      case RouteStorage => routeStorage * GIB
      case CombinedLogs => combinedLogs * GIB
    }
  }

  predicate CountersValid(counters: seq<int>) {
    |counters| == COUNTERS && forall i :: 0 <= i < COUNTERS ==> 0 <= counters[i] <= MAX_COUNTER
  }

  /** Strictly later, and no counter has moved backwards. */
  predicate Advances(from: Health, to: Health) {
    && from.observedAt < to.observedAt
    && |from.counters| == |to.counters| == COUNTERS
    && forall i :: 0 <= i < COUNTERS ==> from.counters[i] <= to.counters[i]
  }

  function ValidateHealth(payload: HealthPayload, now: int, previous: Option<Health>): Option<Health> {
    if !payload.identified || payload.observedAt.None? then None
    else
      var age := now - payload.observedAt.value;
      var health := Health(payload.observedAt.value, payload.counters);
      if age < -FUTURE_TOLERANCE || age > HEALTH_FRESHNESS then None
      else if !CountersValid(payload.counters) || !payload.healthy then None
      else if previous.Some? && !Advances(previous.value, health) then None
      else Some(health)
  }

  function ValidateResources(payload: ResourcePayload, ceilings: Ceilings): Option<map<Metric, int>> {
    if !payload.complete || payload.values.Keys != Elements(METRICS) || payload.restarts.Keys != {Primary, Standby}
    then None
    else if exists m | m in payload.values :: payload.values[m] < 0 || payload.values[m] > ceilings.For(m) then None
    else if exists r | r in payload.restarts :: payload.restarts[r] != 0 then None
    else Some(payload.values)
  }

  /** _sample: both workers, then continuity, then resources.  A primary that is not required may be
      missing, but one that is there is held to the same rules. */
  function Judge(
    reply: HealthReply, previous: Option<Snapshot>, requirePrimary: bool, ceilings: Ceilings): Option<Accepted>
  {
    if !reply.shaped then None
    else if reply.standby.None? || (requirePrimary && reply.primary.None?) then None
    else
      var before := (role: Role) => if previous.None? then None else previous.value.Of(role);
      var primary :=
        if reply.primary.None? then None else ValidateHealth(reply.primary.value, reply.now, before(Primary));
      var standby := ValidateHealth(reply.standby.value, reply.now, before(Standby));
      if (reply.primary.Some? && primary.None?) || standby.None? || !reply.continuity then None
      else
        var values := ValidateResources(reply.resources, ceilings);
        if values.None? then None else Some(Accepted(Snapshot(primary, standby), values.value))
  }

  // ----- What an acceptable reply is -----

  /** A worker's document may be believed: it is the worker's own, says it is healthy, was written at most 330 seconds
      before and at most five after the clock was read, has six counters in range, and is later than the last one
      with no counter gone back. */
  predicate Believable(document: HealthPayload, now: int, last: Option<Health>) {
    && document.identified && document.healthy
    && document.observedAt.Some? && now - 330_000_000 <= document.observedAt.value <= now + 5_000_000
    && |document.counters| == 6
    && (forall c | c in document.counters :: 0 <= c < 0x8000_0000_0000_0000)
    && (last.Some? ==>
          && last.value.observedAt < document.observedAt.value && |last.value.counters| == 6
          && forall i :: 0 <= i < 6 ==> last.value.counters[i] <= document.counters[i])
  }

  /** Every metric is there and within its ceiling, and no container was restarted. */
  predicate WithinLimits(resources: ResourcePayload, ceilings: Ceilings) {
    && resources.complete
    && resources.values.Keys == Elements(METRICS) && resources.restarts == map[Primary := 0, Standby := 0]
    && (forall m | m in METRICS :: resources.values[m] >= 0)
    && resources.values[Unattributed] == 0
    && resources.values[Device(Primary)] <= ceilings.primary * GIB
    && resources.values[Device(Standby)] <= ceilings.standby * GIB
    && resources.values[Combined] <= ceilings.combined * GIB
    && resources.values[HostMemory] <= ceilings.hostMemory * GIB
    && resources.values[RouteStorage] <= ceilings.routeStorage * GIB
    && resources.values[CombinedLogs] <= ceilings.combinedLogs * GIB
  }

  /** The reply is well formed, has the standby and, where it is required, the primary, and what it has of each may be
      believed; the identities were continuous, and the resources are within their limits. */
  predicate Acceptable(reply: HealthReply, last: Option<Snapshot>, requirePrimary: bool, ceilings: Ceilings) {
    && reply.shaped && reply.continuity && WithinLimits(reply.resources, ceilings)
    && reply.standby.Some? && (requirePrimary ==> reply.primary.Some?)
    && Believable(reply.standby.value, reply.now, if last.Some? then last.value.standby else None)
    && (reply.primary.Some? ==>
          Believable(reply.primary.value, reply.now, if last.Some? then last.value.primary else None))
  }

  /** The sample says what the reply says. */
  predicate SampleOf(sample: Accepted, reply: HealthReply) {
    && sample.values == reply.resources.values
    && SaysSame(sample.snapshot.primary, reply.primary) && SaysSame(sample.snapshot.standby, reply.standby)
  }

  predicate SaysSame(health: Option<Health>, document: Option<HealthPayload>) {
    if document.None? then health.None?
    else
      && health.Some? && Some(health.value.observedAt) == document.value.observedAt
      && health.value.counters == document.value.counters
  }

  lemma HealthExactly(document: HealthPayload, now: int, last: Option<Health>)
    ensures ValidateHealth(document, now, last).Some? <==> Believable(document, now, last)
    ensures ValidateHealth(document, now, last).Some? ==> SaysSame(ValidateHealth(document, now, last), Some(document))
  {
    if Believable(document, now, last) {
      assert forall i :: 0 <= i < COUNTERS ==> document.counters[i] in document.counters;
    }
  }

  lemma ResourcesExactly(resources: ResourcePayload, ceilings: Ceilings)
    ensures ValidateResources(resources, ceilings).Some? <==> WithinLimits(resources, ceilings)
    ensures ValidateResources(resources, ceilings).Some? ==>
              ValidateResources(resources, ceilings).value == resources.values
  {
    NoRestarts(resources.restarts);
    if resources.values.Keys == Elements(METRICS) {
      LimitsExactly(resources.values, ceilings);
    }
  }

  lemma NoRestarts(restarts: map<Role, int>)
    ensures restarts == map[Primary := 0, Standby := 0] <==>
              restarts.Keys == {Primary, Standby} && forall r | r in restarts :: restarts[r] == 0
  {
  }

  lemma LimitsExactly(values: map<Metric, int>, ceilings: Ceilings)
    requires values.Keys == Elements(METRICS)
    ensures (forall m | m in values :: 0 <= values[m] <= ceilings.For(m)) <==>
              && (forall m | m in METRICS :: values[m] >= 0)
              && values[Unattributed] == 0
              && values[Device(Primary)] <= ceilings.primary * GIB
              && values[Device(Standby)] <= ceilings.standby * GIB
              && values[Combined] <= ceilings.combined * GIB
              && values[HostMemory] <= ceilings.hostMemory * GIB
              && values[RouteStorage] <= ceilings.routeStorage * GIB
              && values[CombinedLogs] <= ceilings.combinedLogs * GIB
  {
    forall m: Metric ensures m in METRICS {
      MetricIsListed(m);
    }
  }

  lemma MetricIsListed(m: Metric)
    ensures m in METRICS
  {
    match m
    case Unattributed => assert METRICS[0] == m;
    case Combined => assert METRICS[1] == m;
    case HostMemory => assert METRICS[2] == m;
    case RouteStorage => assert METRICS[3] == m;
    case CombinedLogs => assert METRICS[4] == m;
    case Device(Primary) => assert METRICS[5] == m;
    case Device(Standby) => assert METRICS[6] == m;
  }

  /** The sampler accepts exactly the acceptable replies, and keeps what they say. */
  lemma JudgeExactly(reply: HealthReply, last: Option<Snapshot>, requirePrimary: bool, ceilings: Ceilings)
    ensures Judge(reply, last, requirePrimary, ceilings).Some? <==> Acceptable(reply, last, requirePrimary, ceilings)
    ensures Judge(reply, last, requirePrimary, ceilings).Some? ==>
              SampleOf(Judge(reply, last, requirePrimary, ceilings).value, reply)
  {
    ResourcesExactly(reply.resources, ceilings);
    if reply.standby.Some? {
      HealthExactly(reply.standby.value, reply.now, if last.Some? then last.value.standby else None);
    }
    if reply.primary.Some? {
      HealthExactly(reply.primary.value, reply.now, if last.Some? then last.value.primary else None);
    }
  }

  // ----- The chain of accepted samples -----

  /** Every sample has a standby, sound counters and resources within their ceilings, and each worker
      named in two consecutive samples advances from one to the other. */
  ghost predicate Chain(run: seq<Accepted>, ceilings: Ceilings) {
    && (forall i :: 0 <= i < |run| ==> Sound(run[i], ceilings))
    && (forall i :: 0 < i < |run| ==> Follows(run[i - 1].snapshot, run[i].snapshot))
  }

  predicate Sound(sample: Accepted, ceilings: Ceilings) {
    && sample.snapshot.standby.Some?
    && sample.values.Keys == Elements(METRICS)
    && forall m | m in sample.values :: 0 <= sample.values[m] <= ceilings.For(m)
  }

  predicate Follows(from: Snapshot, to: Snapshot) {
    && (from.standby.Some? && to.standby.Some? ==> Advances(from.standby.value, to.standby.value))
    && (from.primary.Some? && to.primary.Some? ==> Advances(from.primary.value, to.primary.value))
  }

  function Last(run: seq<Accepted>): Option<Snapshot> {
    if run == [] then None else Some(run[|run| - 1].snapshot)
  }

  /** Accepting one more sample on top of the last keeps the chain. */
  lemma JudgeExtendsChain(run: seq<Accepted>, reply: HealthReply, requirePrimary: bool, ceilings: Ceilings)
    requires Chain(run, ceilings)
    ensures var judged := Judge(reply, Last(run), requirePrimary, ceilings);
            judged.Some? ==> Chain(run + [judged.value], ceilings)
                             && (requirePrimary ==> judged.value.snapshot.primary.Some?)
  {
    var judged := Judge(reply, Last(run), requirePrimary, ceilings);
    if judged.Some? {
      var longer := run + [judged.value];
      forall i | 0 <= i < |longer| ensures Sound(longer[i], ceilings) {
        if i < |run| {
          assert Sound(run[i], ceilings);
        }
      }
      forall i | 0 < i < |longer| ensures Follows(longer[i - 1].snapshot, longer[i].snapshot) {
        if i < |run| {
          assert Follows(run[i - 1].snapshot, run[i].snapshot);
        }
      }
    }
  }

  /** Over any stretch of accepted samples that all name a worker, that worker's timestamps strictly
      increase and none of its counters ever decreases, from any sample to any later one. */
  lemma {:induction false} StretchAdvances(run: seq<Accepted>, ceilings: Ceilings, role: Role, i: nat, j: nat)
    requires Chain(run, ceilings) && i < j < |run|
    requires forall k :: i <= k <= j ==> run[k].snapshot.Of(role).Some?
    ensures Advances(run[i].snapshot.Of(role).value, run[j].snapshot.Of(role).value)
    decreases j - i
  {
    assert Follows(run[j - 1].snapshot, run[j].snapshot);
    assert run[j - 1].snapshot.Of(role).Some? && run[j].snapshot.Of(role).Some?;
    if i < j - 1 {
      StretchAdvances(run, ceilings, role, i, j - 1);
    }
  }

  /** The standby is in every sample, so for it the stretch is the whole run. */
  lemma StandbyAdvances(run: seq<Accepted>, ceilings: Ceilings, i: nat, j: nat)
    requires Chain(run, ceilings) && i < j < |run|
    ensures run[i].snapshot.standby.Some? && run[j].snapshot.standby.Some?
    ensures Advances(run[i].snapshot.standby.value, run[j].snapshot.standby.value)
  {
    forall k | i <= k <= j ensures run[k].snapshot.Of(Standby).Some? {
      assert Sound(run[k], ceilings);
    }
    StretchAdvances(run, ceilings, Standby, i, j);
  }

  // ----- The observed maxima -----

  function Peak(run: seq<Accepted>, m: Metric): (peak: int)
    requires forall i :: 0 <= i < |run| ==> m in run[i].values
  {
    if run == [] then 0
    else
      var before := Peak(run[..|run| - 1], m);
      var value := run[|run| - 1].values[m];
      if value > before then value else before
  }

  /** Peak is the greatest observed value: an upper bound that some sample reaches, zero when there is
      nothing above it. */
  lemma {:induction false} PeakIsMaximum(run: seq<Accepted>, m: Metric)
    requires forall i :: 0 <= i < |run| ==> m in run[i].values
    ensures forall i :: 0 <= i < |run| ==> run[i].values[m] <= Peak(run, m)
    ensures Peak(run, m) == 0 || exists i :: 0 <= i < |run| && run[i].values[m] == Peak(run, m)
    ensures Peak(run, m) >= 0
  {
    if run != [] {
      var init := run[..|run| - 1];
      PeakIsMaximum(init, m);
      if Peak(init, m) == Peak(run, m) && Peak(init, m) != 0 {
        var i :| 0 <= i < |init| && init[i].values[m] == Peak(init, m);
        assert run[i].values[m] == Peak(run, m);
      }
    }
  }

  /** Every sample has every metric. */
  ghost predicate Complete(run: seq<Accepted>) {
    forall i :: 0 <= i < |run| ==> run[i].values.Keys == Elements(METRICS)
  }

  lemma ChainIsComplete(run: seq<Accepted>, ceilings: Ceilings)
    requires Chain(run, ceilings)
    ensures Complete(run)
  {
    forall i | 0 <= i < |run| ensures run[i].values.Keys == Elements(METRICS) {
      assert Sound(run[i], ceilings);
    }
  }

  /** What the report's maxima say about the accepted samples. */
  ghost predicate Observed(maxima: map<Metric, int>, run: seq<Accepted>)
    requires Complete(run)
  {
    && maxima.Keys == (if run == [] then {} else Elements(METRICS))
    && forall m | m in maxima :: maxima[m] == Peak(run, m)
  }

  lemma PeakExtends(run: seq<Accepted>, sample: Accepted, m: Metric)
    requires m in sample.values && forall i :: 0 <= i < |run| ==> m in run[i].values
    ensures var longer := run + [sample];
            && (forall i :: 0 <= i < |longer| ==> m in longer[i].values)
            && Peak(longer, m) == (if sample.values[m] > Peak(run, m) then sample.values[m] else Peak(run, m))
  {
    assert (run + [sample])[..|run|] == run;
  }

  /** A metric not seen before counts as 0. */
  function Raised(maxima: map<Metric, int>, m: Metric, value: int): int {
    var sofar := if m in maxima then maxima[m] else 0;
    if value > sofar then value else sofar
  }

  /** Folding one sample into the maxima, a metric at a time. */
  method RaiseMaxima(maxima: map<Metric, int>, sample: map<Metric, int>, order: seq<Metric>)
    returns (raised: map<Metric, int>)
    requires Distinct(order) && sample.Keys == Elements(order)
    ensures raised.Keys == maxima.Keys + sample.Keys
    ensures forall m | m in sample :: raised[m] == Raised(maxima, m, sample[m])
    ensures forall m | m in maxima && m !in sample :: raised[m] == maxima[m]
  {
    raised := maxima;
    for i := 0 to |order|
      invariant raised.Keys == maxima.Keys + Elements(order[..i])
      invariant forall j :: 0 <= j < i ==> raised[order[j]] == Raised(maxima, order[j], sample[order[j]])
      invariant forall m | m in maxima && m !in order[..i] :: raised[m] == maxima[m]
    {
      var m := order[i];
      assert order[..i + 1] == order[..i] + [m];
      assert Elements(order[..i + 1]) == Elements(order[..i]) + {m};
      raised := raised[m := Raised(raised, m, sample[m])];
    }
    assert order[..|order|] == order;
  }

  lemma SampleIsSound(run: seq<Accepted>, sample: Accepted, ceilings: Ceilings)
    requires Chain(run + [sample], ceilings)
    ensures sample.values.Keys == Elements(METRICS)
  {
    assert Sound((run + [sample])[|run|], ceilings);
  }

  /** The folded maxima are those of the longer run. */
  lemma RaisedIsObserved(maxima: map<Metric, int>, run: seq<Accepted>, sample: Accepted, raised: map<Metric, int>)
    requires Complete(run)
    requires sample.values.Keys == Elements(METRICS) && Observed(maxima, run)
    requires raised.Keys == maxima.Keys + sample.values.Keys
    requires forall m | m in sample.values :: raised[m] == Raised(maxima, m, sample.values[m])
    ensures Observed(raised, run + [sample])
  {
    forall m | m in raised ensures raised[m] == Peak(run + [sample], m) {
      PeakExtends(run, sample, m);
    }
  }

  /** Whatever a run reports as a maximum is within its ceiling. */
  lemma MaximaWithinCeilings(maxima: map<Metric, int>, run: seq<Accepted>, ceilings: Ceilings, m: Metric)
    requires Chain(run, ceilings) && Complete(run) && Observed(maxima, run) && m in maxima
    ensures 0 <= maxima[m] <= ceilings.For(m)
  {
    PeakIsMaximum(run, m);
    if Peak(run, m) != 0 {
      var i :| 0 <= i < |run| && run[i].values[m] == Peak(run, m);
      assert Sound(run[i], ceilings);
    }
  }

  // ----- The samples of a run -----

  /** The samples are those of acceptable replies of the host, in order, the i-th of the reply at the i-th of these
      places. */
  ghost predicate FromReplies(
    run: seq<Accepted>, places: seq<nat>, replies: seq<HealthReply>, required: seq<bool>, ceilings: Ceilings)
  {
    && |places| == |run|
    && (forall i, j :: 0 <= i < j < |places| ==> places[i] < places[j])
    && forall i {:trigger KeptAt(run, places, i, replies, required, ceilings)} ::
         0 <= i < |run| ==> KeptAt(run, places, i, replies, required, ceilings)
  }

  predicate KeptAt(
    run: seq<Accepted>, places: seq<nat>, i: nat, replies: seq<HealthReply>, required: seq<bool>, ceilings: Ceilings)
    requires i < |run| && i < |places|
  {
    FromReply(run[i], Last(run[..i]), places[i], replies, required, ceilings)
  }

  /** The sample is that of the reply at this place, acceptable after the last one and with the primary required as it
      was. */
  predicate FromReply(
    sample: Accepted, last: Option<Snapshot>, place: nat, replies: seq<HealthReply>, required: seq<bool>,
    ceilings: Ceilings)
  {
    && place < |replies| && place < |required|
    && Acceptable(replies[place], last, required[place], ceilings) && SampleOf(sample, replies[place])
  }

  /** Asking again leaves what is kept where it is from. */
  lemma AskedAgain(
    run: seq<Accepted>, places: seq<nat>, replies: seq<HealthReply>, required: seq<bool>, next: bool,
    ceilings: Ceilings)
    requires FromReplies(run, places, replies, required, ceilings)
    ensures FromReplies(run, places, replies, required + [next], ceilings)
  {
    forall i | 0 <= i < |run| ensures KeptAt(run, places, i, replies, required + [next], ceilings) {
      assert KeptAt(run, places, i, replies, required, ceilings);
      assert (required + [next])[places[i]] == required[places[i]];
    }
  }

  lemma OneMoreKept(
    run: seq<Accepted>, places: seq<nat>, replies: seq<HealthReply>, required: seq<bool>, ceilings: Ceilings,
    sample: Accepted, place: nat)
    requires FromReplies(run, places, replies, required, ceilings)
    requires places != [] ==> places[|places| - 1] < place
    requires FromReply(sample, Last(run), place, replies, required, ceilings)
    ensures FromReplies(run + [sample], places + [place], replies, required, ceilings)
  {
    var longer, more := run + [sample], places + [place];
    forall i | 0 <= i < |longer| ensures KeptAt(longer, more, i, replies, required, ceilings) {
      assert longer[..i] == run[..i];
      if i < |run| {
        assert KeptAt(run, places, i, replies, required, ceilings);
        assert longer[i] == run[i] && more[i] == places[i];
      } else {
        assert run[..i] == run && longer[i] == sample && more[i] == place;
      }
    }
  }

  /** What is kept of a run of samples is so. */
  ghost predicate Accounted(
    run: seq<Accepted>, ceilings: Ceilings, previous: Option<Snapshot>, count: nat, maxima: map<Metric, int>)
  {
    && Chain(run, ceilings) && Complete(run)
    && previous == Last(run) && count == |run| && Observed(maxima, run)
  }

  lemma OneMoreAccounted(
    run: seq<Accepted>, ceilings: Ceilings, previous: Option<Snapshot>, count: nat, maxima: map<Metric, int>,
    sample: Accepted, raised: map<Metric, int>)
    requires Accounted(run, ceilings, previous, count, maxima) && Chain(run + [sample], ceilings)
    requires raised.Keys == maxima.Keys + sample.values.Keys
    requires forall m | m in sample.values :: raised[m] == Raised(maxima, m, sample.values[m])
    ensures Accounted(run + [sample], ceilings, Some(sample.snapshot), count + 1, raised)
  {
    ChainIsComplete(run + [sample], ceilings);
    assert (run + [sample])[|run|] == sample;
    RaisedIsObserved(maxima, run, sample, raised);
  }

  /** One more sample folded into the maxima. */
  method Fold(
    ghost run: seq<Accepted>, ceilings: Ceilings, ghost previous: Option<Snapshot>, ghost count: nat,
    maxima: map<Metric, int>, sample: Accepted)
    returns (raised: map<Metric, int>)
    requires Accounted(run, ceilings, previous, count, maxima) && Chain(run + [sample], ceilings)
    ensures Accounted(run + [sample], ceilings, Some(sample.snapshot), count + 1, raised)
  {
    SampleIsSound(run, sample, ceilings);
    raised := RaiseMaxima(maxima, sample.values, METRICS);
    OneMoreAccounted(run, ceilings, previous, count, maxima, sample, raised);
  }

  /** The sample of a reply, if it is acceptable. */
  method Examine(
    ghost run: seq<Accepted>, last: Option<Snapshot>, reply: HealthReply, requirePrimary: bool, ceilings: Ceilings)
    returns (sample: Option<Accepted>)
    requires Chain(run, ceilings) && last == Last(run)
    ensures sample.Some? <==> Acceptable(reply, last, requirePrimary, ceilings)
    ensures sample.Some? ==> SampleOf(sample.value, reply) && Chain(run + [sample.value], ceilings)
    ensures sample.Some? && requirePrimary ==> sample.value.snapshot.primary.Some?
  {
    sample := Judge(reply, last, requirePrimary, ceilings);
    JudgeExactly(reply, last, requirePrimary, ceilings);
    JudgeExtendsChain(run, reply, requirePrimary, ceilings);
  }

  /** What a run keeps of its samples: the last one, how many there were, and the maxima. */
  class SampleLog {
    const ceilings: Ceilings
    const replies: seq<HealthReply>    // what the host will say when asked
    var required: seq<bool>            // of each time it was asked, whether the primary was required
    var previous: Option<Snapshot>
    var count: nat
    var maxima: map<Metric, int>
    ghost var accepted: seq<Accepted>
    ghost var places: seq<nat>         // the replies they are from

    constructor (ceilings: Ceilings, replies: seq<HealthReply>)
      ensures this.ceilings == ceilings && this.replies == replies && required == [] && accepted == [] && Valid()
    {
      this.ceilings, this.replies, required, previous, count, maxima := ceilings, replies, [], None, 0, map[];
      accepted, places := [], [];
    }

    ghost predicate Valid()
      reads this`required, this`previous, this`count, this`maxima, this`accepted, this`places
    {
      && Accounted(accepted, ceilings, previous, count, maxima)
      && FromReplies(accepted, places, replies, required, ceilings)
      && |places| <= |required| && (places != [] ==> places[|places| - 1] < |required|)
    }

    /** One reply of the host, kept exactly when it is acceptable after the last one kept. */
    method Take(requirePrimary: bool) returns (ok: bool)
      requires Valid()
      modifies this
      ensures Valid() && required == old(required) + [requirePrimary]
      ensures old(accepted) <= accepted
      ensures |accepted| == |old(accepted)| + (if ok then 1 else 0)
      ensures ok && requirePrimary ==> accepted[|accepted| - 1].snapshot.primary.Some?
      ensures ok <==>
                && old(|required|) < |replies|
                && Acceptable(replies[old(|required|)], Last(old(accepted)), requirePrimary, ceilings)
      ensures ok ==> SampleOf(accepted[|accepted| - 1], replies[old(|required|)])
      ensures places == old(places) + if ok then [old(|required|)] else []
      ensures |required| - |places| == old(|required| - |places|) + if ok then 0 else 1
    {
      var place := Ask(requirePrimary);
      if place >= |replies| {
        return false;
      }
      var judged := Examine(accepted, previous, replies[place], requirePrimary, ceilings);
      if judged.None? {
        return false;
      }
      Add(judged.value, place);
      ok := true;
    }

    method Ask(requirePrimary: bool) returns (place: nat)
      requires Valid()
      modifies this`required
      ensures Valid() && place == |old(required)| && required == old(required) + [requirePrimary]
      ensures |places| < |required|
      ensures places != [] ==> places[|places| - 1] < place
    {
      place := |required|;
      AskedAgain(accepted, places, replies, required, requirePrimary, ceilings);
      required := required + [requirePrimary];
    }

    /** The next sample, from the last reply. */
    method Add(sample: Accepted, place: nat)
      requires Valid() && Chain(accepted + [sample], ceilings)
      requires |places| < |required| && place + 1 == |required| && (places != [] ==> places[|places| - 1] < place)
      requires FromReply(sample, previous, place, replies, required, ceilings)
      modifies this`previous, this`count, this`maxima, this`accepted, this`places
      ensures Valid() && accepted == old(accepted) + [sample] && places == old(places) + [place]
    {
      OneMoreKept(accepted, places, replies, required, ceilings, sample, place);
      Keep(sample, place);
    }

    method Keep(sample: Accepted, place: nat)
      requires Valid() && Chain(accepted + [sample], ceilings)
      requires |places| < |required| && place < |required|
      requires FromReplies(accepted + [sample], places + [place], replies, required, ceilings)
      modifies this`previous, this`count, this`maxima, this`accepted, this`places
      ensures Valid() && accepted == old(accepted) + [sample] && places == old(places) + [place]
    {
      var raisedMaxima := Fold(accepted, ceilings, previous, count, maxima, sample);
      maxima, previous := raisedMaxima, Some(sample.snapshot);
      count, accepted, places := count + 1, accepted + [sample], places + [place];
    }
  }

  /** A healthy worker's document, read at the second it was written. */
  function Healthy(second: nat, served: nat): HealthPayload {
    HealthPayload(true, Some(second * 1_000_000), seq(COUNTERS, _ => served), true)
  }

  function HealthyReply(second: nat, primary: Option<HealthPayload>): HealthReply {
    HealthReply(second * 1_000_000, true, primary, Some(Healthy(second, 0)), true,
                ResourcePayload(true, map m | m in Elements(METRICS) :: 0, map[Primary := 0, Standby := 0]))
  }

  lemma HealthyIsAccepted(
      reply: HealthReply, previous: Option<Snapshot>, requirePrimary: bool, ceilings: Ceilings,
      second: nat, served: Option<nat>)
    requires reply == HealthyReply(second, if served.None? then None else Some(Healthy(second, served.value)))
    requires served.Some? ==> served.value <= MAX_COUNTER
    requires requirePrimary ==> served.Some?
    requires previous.Some? && previous.value.standby.Some? ==>
               Advances(previous.value.standby.value, Health(second * 1_000_000, seq(COUNTERS, _ => 0)))
    requires previous.Some? && previous.value.primary.Some? && served.Some? ==>
               Advances(previous.value.primary.value, Health(second * 1_000_000, seq(COUNTERS, _ => served.value)))
    ensures Acceptable(reply, previous, requirePrimary, ceilings)
  {
    assert forall m | m in METRICS :: m in Elements(METRICS);
  }

  function HealthySnapshot(second: nat, served: Option<nat>): Snapshot {
    Snapshot(
      if served.None? then None else Some(Health(second * 1_000_000, seq(COUNTERS, _ => served.value))),
      Some(Health(second * 1_000_000, seq(COUNTERS, _ => 0))))
  }

  lemma HealthySample(sample: Accepted, second: nat, served: Option<nat>)
    requires SampleOf(sample, HealthyReply(second, if served.None? then None else Some(Healthy(second, served.value))))
    ensures sample.snapshot == HealthySnapshot(second, served)
  {
  }

  /** A worker whose counters fall while it is left out: three replies, each acceptable after the one before. */
  method Restarting(ceilings: Ceilings) returns (replies: seq<HealthReply>, ghost snapshots: seq<Snapshot>)
    ensures |replies| == |snapshots| == 3
    ensures Acceptable(replies[0], None, true, ceilings)
    ensures Acceptable(replies[1], Some(snapshots[0]), false, ceilings)
    ensures Acceptable(replies[2], Some(snapshots[1]), true, ceilings)
    ensures forall i, sample :: 0 <= i < 3 && SampleOf(sample, replies[i]) ==> sample.snapshot == snapshots[i]
    ensures snapshots[0].primary.Some? && snapshots[2].primary.Some?
    ensures !Advances(snapshots[0].primary.value, snapshots[2].primary.value)
  {
    replies := [HealthyReply(0, Some(Healthy(0, 1))), HealthyReply(1, None), HealthyReply(2, Some(Healthy(2, 0)))];
    snapshots := [HealthySnapshot(0, Some(1)), HealthySnapshot(1, None), HealthySnapshot(2, Some(0))];
    HealthyIsAccepted(replies[0], None, true, ceilings, 0, Some(1));
    HealthyIsAccepted(replies[1], Some(snapshots[0]), false, ceilings, 1, None);
    HealthyIsAccepted(replies[2], Some(snapshots[1]), true, ceilings, 2, Some(0));
    forall i, sample | 0 <= i < 3 && SampleOf(sample, replies[i]) ensures sample.snapshot == snapshots[i] {
      HealthySample(sample, i, if i == 0 then Some(1) else if i == 1 then None else Some(0));
    }
    assert snapshots[0].primary.value.counters[0] > snapshots[2].primary.value.counters[0];
  }

  /** A run of three replies, all accepted: the fallback sample leaves the primary out, and when it is back its
      counters have fallen. */
  method PrimaryRestarts(ceilings: Ceilings) returns (log: SampleLog, first: bool, fallback: bool, restored: bool)
    ensures fresh(log) && first && fallback && restored && log.Valid() && |log.accepted| == 3
    ensures log.accepted[0].snapshot.primary.Some? && log.accepted[2].snapshot.primary.Some?
    ensures !Advances(log.accepted[0].snapshot.primary.value, log.accepted[2].snapshot.primary.value)
  {
    ghost var snapshots;
    var replies;
    replies, snapshots := Restarting(ceilings);
    log := new SampleLog(ceilings, replies);
    first := log.Take(true);
    fallback := log.Take(false);
    restored := log.Take(true);
  }
}
