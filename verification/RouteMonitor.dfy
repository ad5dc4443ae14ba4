/** The monitoring of a public-route run: what its readings of the clock, its commands and its samples show. */
module RouteMonitor {
  import opened Prelude
  import opened GcpProvider
  import opened RouteSamples

  const HEALTH_PERIOD: nat := 300_000_000  // in microseconds

  /** The clock, read after so many commands were given. */
  datatype Reading = Reading(time: int, step: nat)

  /** How long to sleep between two looks: never past the deadline, and less than a period only to wake at it. */
  function PauseFor(period: nat, left: int): (pause: int)
    ensures 0 <= pause <= period
    ensures pause > 0 ==> pause <= left
    ensures pause < period ==> left <= pause
  {
    if left < 0 then 0 else if left < period then left else period
  }

  /** One pass of the monitoring, the i-th of those begun with the m-th reading: the clock was read twice, first before
      the deadline; then the run slept for the health period or what was left, uninterrupted, and looked at the health,
      which worked. */
  predicate Pass(provider: Provider, readings: seq<Reading>, given: seq<Command>, m: nat, i: nat, micros: nat) {
    && m + 2 * i + 2 < |readings|
    && var step, next, left := readings[m].step + 2 * i, readings[m + 2 * i + 1], readings[m + 2 * i + 2];
       var deadline := readings[m].time + micros;
       && step + 1 < |given|
       && next.step == step && next.time < deadline && left.step == step
       && given[step] == Does(Pause(PauseFor(HEALTH_PERIOD, deadline - left.time)))
       && given[step + 1] == Does(HealthLook)
       && !provider.At(step).Raises? && provider.At(step + 1) == Works
  }

  /** The first k passes. */
  predicate Passes(provider: Provider, readings: seq<Reading>, given: seq<Command>, m: nat, k: nat, micros: nat) {
    k == 0 ||
    (Passes(provider, readings, given, m, k - 1, micros) && Pass(provider, readings, given, m, k - 1, micros))
  }

  lemma {:induction false} PassesStay(
    provider: Provider, readings: seq<Reading>, longer: seq<Reading>, given: seq<Command>, more: seq<Command>, m: nat,
    k: nat, micros: nat)
    requires Passes(provider, readings, given, m, k, micros) && readings <= longer && given <= more
    ensures Passes(provider, longer, more, m, k, micros)
  {
    if k > 0 {
      PassesStay(provider, readings, longer, given, more, m, k - 1, micros);
    }
  }

  /** So many passes have been made since the m-th reading, to the n-th command, and the clock has been read again. */
  predicate Monitoring(
    provider: Provider, readings: seq<Reading>, given: seq<Command>, n: nat, m: nat, k: nat, micros: nat)
  {
    && |readings| == m + 2 * k + 2
    && n == readings[m].step + 2 * k <= |given|
    && readings[|readings| - 1].step == n
    && Passes(provider, readings, given, m, k, micros)
  }

  lemma OneMorePass(
    provider: Provider, readings: seq<Reading>, given: seq<Command>, m: nat, k: nat, micros: nat, left: int, now: int,
    longer: seq<Reading>, more: seq<Command>)
    requires Monitoring(provider, readings, given, |given|, m, k, micros)
    requires readings[|readings| - 1].time < readings[m].time + micros
    requires longer == readings + [Reading(left, |given|), Reading(now, |given| + 2)]
    requires !provider.At(|given|).Raises? && provider.At(|given| + 1) == Works
    requires more == given +
               [Does(Pause(PauseFor(HEALTH_PERIOD, readings[m].time + micros - left))), Does(HealthLook)]
    ensures Monitoring(provider, longer, more, |more|, m, k + 1, micros)
  {
    PassesStay(provider, readings, longer, given, more, m, k, micros);
    assert longer[m] == readings[m] && longer[m + 2 * k + 1] == readings[m + 2 * k + 1];
  }

  /** The monitoring of a run that passed, told by its readings, its first n commands and its samples.  Right after
      the probe that found the restored primary chosen the clock was read, for the m-th time; from then on the run made
      as many passes as it has samples beyond the first three, until the clock was at or past that reading and the
      monitoring time; each pass asked for one sample, which was accepted; and every sample but the one of the fallback
      names the primary. */
  predicate Watched(
    provider: Provider, readings: seq<Reading>, m: nat, given: seq<Command>, n: nat, accepted: seq<Accepted>,
    places: seq<nat>, asked: nat, micros: nat)
  {
    && 3 <= |accepted| == |places|
    && Monitoring(provider, readings, given, n, m, |accepted| - 3, micros)
    && readings[|readings| - 1].time >= readings[m].time + micros
    && readings[m].step > 0 && given[readings[m].step - 1] == Asks(AutoChoosesPrimary)
    && (forall i :: 0 <= i < |accepted| && i != 1 ==> accepted[i].snapshot.primary.Some?)
    && forall i :: 3 <= i < |places| ==> places[i] == asked - |places| + i
  }

  /** Any pass of a run that passed is one. */
  lemma {:induction false} EachIsPass(
    provider: Provider, readings: seq<Reading>, given: seq<Command>, m: nat, k: nat, i: nat, micros: nat)
    requires Passes(provider, readings, given, m, k, micros) && i < k
    ensures Pass(provider, readings, given, m, i, micros)
  {
    if i < k - 1 {
      EachIsPass(provider, readings, given, m, k - 1, i, micros);
    }
  }

  /** If the clock, when it was read again, was before the deadline, at least one sample belongs to the monitoring. */
  lemma WatchedAtLeastOnce(
    provider: Provider, readings: seq<Reading>, m: nat, given: seq<Command>, n: nat, accepted: seq<Accepted>,
    places: seq<nat>, asked: nat, micros: nat)
    requires Watched(provider, readings, m, given, n, accepted, places, asked, micros)
    requires readings[m + 1].time < readings[m].time + micros
    ensures |accepted| > 3
  {
    assert m + 1 == |readings| - 1 - 2 * (|accepted| - 3);
  }
}
