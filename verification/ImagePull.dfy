/** The host's image pull: a few attempts, spaced further and further apart, before a deadline. */
module ImagePull {
  import opened Prelude

  /** No delay before the first attempt, then the retry delays, in seconds. */
  const DELAYS: seq<real> := [0.0, 5.0, 15.0, 60.0, 120.0]

  const COMMAND_LIMIT: int := 3600

  /** One docker pull: the clock when its timeout was chosen, the timeout, and whether it worked. */
  datatype Attempt = Attempt(at: real, timeout: int, worked: bool)

  function Least(a: int, b: int): int {
    if a < b then a else b
  }

  function Most(a: real, b: real): real {
    if a > b then a else b
  }

  /** An attempt is begun with at least a second left, and its timeout is all that is left, rounded up, or
      the most a command may take. */
  predicate InTime(a: Attempt, deadline: real, maximum: int) {
    && a.at + 1.0 <= deadline
    && 1 <= a.timeout <= Least(COMMAND_LIMIT, maximum)
    && a.at + a.timeout as real < deadline + 1.0
    && (deadline <= a.at + a.timeout as real || a.timeout == Least(COMMAND_LIMIT, maximum))
  }

  /** The timeout of an attempt with this much time left. */
  function Timeout(remaining: real, maximum: int): int {
    Least(Least(COMMAND_LIMIT, maximum), if Ceiling(remaining) < 1 then 1 else Ceiling(remaining))
  }

  lemma TimeoutIsInTime(a: Attempt, deadline: real, maximum: int)
    requires maximum >= 1 && deadline - a.at >= 1.0 && a.timeout == Timeout(deadline - a.at, maximum)
    ensures InTime(a, deadline, maximum)
  {
  }

  class Puller {
    var now: real
    var ticks: seq<real>
    const answers: seq<bool>      // whether each attempt works
    var attempts: seq<Attempt>    // the commands given so far

    constructor (now: real, ticks: seq<real>, answers: seq<bool>)
      ensures attempts == [] && this.answers == answers
    {
      this.now, this.ticks, this.answers, attempts := now, ticks, answers, [];
    }

    /** How the i-th attempt goes. */
    function Answer(i: nat): bool {
      i < |answers| && answers[i]
    }

    /** Time passes, at least this much. */
    method Pass(least: real)
      requires least >= 0.0
      modifies this`now, this`ticks
      ensures now >= old(now) + least
      ensures if old(ticks) == [] then now == old(now) + least && ticks == []
              else now == old(now) + least + Most(0.0, old(ticks)[0]) && ticks == old(ticks)[1..]
    {
      now := now + least;
      if ticks != [] {
        now, ticks := if ticks[0] > 0.0 then now + ticks[0] else now, ticks[1..];
      }
    }

    /** The delay before an attempt, unless it would leave less than a second before the deadline. */
    method Pause(delay: real, deadline: real) returns (enough: bool)
      requires delay >= 0.0
      modifies this`now, this`ticks
      ensures if enough then now >= old(now) + delay && deadline - now >= 1.0
              else now >= old(now) && deadline - now <= delay + 1.0
    {
      Pass(0.0);
      if delay != 0.0 {
        if deadline - now <= delay + 1.0 {
          return false;
        }
        Pass(delay);
      }
      enough := deadline - now >= 1.0;
    }

    /** docker pull. */
    method Pull(timeout: int) returns (worked: bool)
      modifies this`attempts, this`now, this`ticks
      ensures now >= old(now) && worked == Answer(old(|attempts|))
      ensures attempts == old(attempts) + [Attempt(old(now), timeout, worked)]
    {
      worked := Answer(|attempts|);
      attempts := attempts + [Attempt(now, timeout, worked)];
      Pass(0.0);
    }

    /** What the attempts so far look like: each in time, spaced by the delays, only the last may have
        worked. */
    ghost predicate Paced(deadline: real, maximum: int)
      reads this`attempts, this`now
    {
      && |attempts| <= |DELAYS|
      && (forall i :: 0 <= i < |attempts| ==> attempts[i].worked == Answer(i))
      && (forall i :: 0 <= i < |attempts| ==> InTime(attempts[i], deadline, maximum) && attempts[i].at <= now)
      && (forall i :: 0 < i < |attempts| ==> attempts[i - 1].at + DELAYS[i] <= attempts[i].at)
      && (forall i :: 0 <= i < |attempts| - 1 ==> !attempts[i].worked)
    }

    /** One attempt, with no more time than is left. */
    method PullOnce(deadline: real, maximum: int) returns (ok: bool)
      requires Paced(deadline, maximum) && |attempts| < |DELAYS| && maximum >= 1 && deadline - now >= 1.0
      requires attempts != [] ==>
                 !attempts[|attempts| - 1].worked
                 && attempts[|attempts| - 1].at + DELAYS[|attempts|] <= now
      modifies this
      ensures Paced(deadline, maximum)
      ensures |attempts| == |old(attempts)| + 1 && attempts[..|old(attempts)|] == old(attempts)
      ensures ok == attempts[|old(attempts)|].worked
    {
      var timeout := Timeout(deadline - now, maximum);
      ok := Pull(timeout);
      TimeoutIsInTime(attempts[|attempts| - 1], deadline, maximum);
    }

    /** _pull_immutable_image.  It returns exactly when an attempt worked, and gives up only after all its
        attempts or when the next delay would leave no second before the deadline. */
    method PullImmutableImage(deadline: real, maximum: int) returns (ok: bool)
      requires attempts == [] && maximum >= 1
      modifies this
      ensures Paced(deadline, maximum)
      ensures ok <==> attempts != [] && attempts[|attempts| - 1].worked
      ensures !ok ==> |attempts| == |DELAYS| || deadline - now <= DELAYS[|attempts|] + 1.0
    {
      for i := 0 to |DELAYS|
        invariant |attempts| == i && Paced(deadline, maximum)
        invariant i > 0 ==> !attempts[i - 1].worked
      {
        var enough := Pause(DELAYS[i], deadline);
        if !enough {
          return false;
        }
        ok := PullOnce(deadline, maximum);
        if ok {
          return;
        }
      }
      ok := false;
    }
  }

  /** Whatever the clock and the commands do, each attempt begins no sooner after the first than the delays
      before it add up to. */
  lemma {:induction false} AttemptsAreSpaced(attempts: seq<Attempt>, k: nat)
    requires |attempts| <= |DELAYS| && k < |attempts|
    requires forall i :: 0 < i < |attempts| ==> attempts[i - 1].at + DELAYS[i] <= attempts[i].at
    ensures attempts[0].at + Total(DELAYS[..k + 1]) <= attempts[k].at
  {
    assert DELAYS[..k + 1][..k] == DELAYS[..k];
    if k > 0 {
      AttemptsAreSpaced(attempts, k - 1);
    } else {
      assert Total(DELAYS[..0]) == 0.0;
    }
  }

  function Total(delays: seq<real>): real {
    if delays == [] then 0.0 else Total(delays[..|delays| - 1]) + delays[|delays| - 1]
  }
}
