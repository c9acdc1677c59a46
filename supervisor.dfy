/** The retry counter of `InstagramBot.run`. Each pass of the outer loop ends
    in one of three ways, and only the counter decides whether the loop goes on. */
module Supervisor {

  /** How one pass of the outer loop ended. */
  datatype Pass =
    | LoginRaised     // login() raised: the counter goes up
    | HealthFailed    // login() returned, later health_check() returned false: the inner loop breaks
    | CycleRaised     // login() returned, later check_messages() raised (its relogin failed)

  /** The counter after one pass that started with `retries`. */
  function Next(retries: nat, p: Pass): nat {
    match p
      case LoginRaised => retries + 1
      case HealthFailed => 0
      case CycleRaised => 1
  }

  /** The counter after the passes `ps`, starting from 0. */
  function Retries(ps: seq<Pass>): nat {
    if ps == [] then 0 else Next(Retries(ps[..|ps| - 1]), ps[|ps| - 1])
  }

  /** `run()` over the passes the world produces, for as long as it produces
      them: before each pass the loop stops for good once the counter has
      reached `maxRetries`. `used` passes were run. */
  method Run(maxRetries: nat, passes: seq<Pass>) returns (exited: bool, retryCount: nat, used: nat)
    ensures used <= |passes|
    ensures retryCount == Retries(passes[..used])
    ensures exited <==> retryCount >= maxRetries
    ensures !exited ==> used == |passes|
    ensures forall k :: 0 <= k < used ==> Retries(passes[..k]) < maxRetries
  {
    retryCount := 0;
    used := 0;
    while used < |passes| && retryCount < maxRetries
      invariant used <= |passes|
      invariant retryCount == Retries(passes[..used])
      invariant forall k :: 0 <= k < used ==> Retries(passes[..k]) < maxRetries
    {
      assert passes[..used + 1][..used] == passes[..used];
      match passes[used] {
        case LoginRaised =>
          retryCount := retryCount + 1;
        case HealthFailed =>
          retryCount := 0;
        case CycleRaised =>
          retryCount := 0;
          retryCount := retryCount + 1;
      }
      used := used + 1;
    }
    exited := retryCount >= maxRetries;
  }

  /** `n` passes whose login raised. */
  function LoginFailures(n: nat): seq<Pass> {
    if n == 0 then [] else LoginFailures(n - 1) + [LoginRaised]
  }

  /** Consecutive login failures add up, one per failure. */
  lemma {:induction false} FailuresAccumulate(ps: seq<Pass>, n: nat)
    ensures |LoginFailures(n)| == n
    ensures Retries(ps + LoginFailures(n)) == Retries(ps) + n
  {
    if n == 0 {
      assert ps + LoginFailures(0) == ps;
    } else {
      FailuresAccumulate(ps, n - 1);
      var qs := ps + LoginFailures(n);
      assert qs[..|qs| - 1] == ps + LoginFailures(n - 1);
    }
  }

  /** So `maxRetries` consecutive login failures always end the run, from
      any history. */
  lemma FailuresEndTheRun(ps: seq<Pass>, maxRetries: nat)
    ensures Retries(ps + LoginFailures(maxRetries)) >= maxRetries
  {
    FailuresAccumulate(ps, maxRetries);
  }

  /** A login that returns resets the counter: after it, the counter is 0 or,
      if the cycle then raised, 1. */
  lemma LoginResets(ps: seq<Pass>)
    ensures Retries(ps + [HealthFailed]) == 0
    ensures Retries(ps + [CycleRaised]) == 1
  {
    assert (ps + [HealthFailed])[..|ps|] == ps;
    assert (ps + [CycleRaised])[..|ps|] == ps;
  }

  /** What the counter means: the number of failures since the last pass
      whose login returned (index `j`, or -1 if there was none), where a
      cycle that raised after that login counts as the first failure. */
  lemma {:induction false} RetriesCountFailuresSinceLogin(ps: seq<Pass>, j: int)
    requires -1 <= j < |ps|
    requires j >= 0 ==> ps[j] != LoginRaised
    requires forall i :: j < i < |ps| ==> ps[i] == LoginRaised
    ensures Retries(ps) == |ps| - 1 - j + (if j >= 0 && ps[j] == CycleRaised then 1 else 0)
    decreases |ps|
  {
    if |ps| - 1 > j {
      var init := ps[..|ps| - 1];
      assert forall i :: j < i < |init| ==> init[i] == ps[i];
      RetriesCountFailuresSinceLogin(init, j);
    }
  }
}
