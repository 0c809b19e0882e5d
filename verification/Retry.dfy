/** Running a task with retries (server/src/runner/task_runner.cpp, `runWithRetry`). */
module Retry {
  import opened TaskCommon

  datatype RetryConfig = RetryConfig(retryCount: int, retryDelay: int, exponential: bool)

  /** What happens from outside: how each attempt ends (numbered from 0), whether a cancel is seen just before
      an attempt, and whether one is seen during the wait after it. */
  datatype World = World(outcome: nat -> Status, cancelBefore: nat -> bool, cancelDuring: nat -> bool)

  /** How a run ended: its status, how many attempts ran, and the waiting time asked for in all, in milliseconds. */
  datatype Report = Report(status: Status, attempts: nat, waited: nat)

  function MaxAttempts(cfg: RetryConfig): (n: nat)
    ensures n >= 1
  {
    if cfg.retryCount + 1 <= 0 then 1 else cfg.retryCount + 1
  }

  function BaseDelay(cfg: RetryConfig): (d: nat)
    ensures d > 0
  {
    if cfg.retryDelay <= 0 then 1000 else cfg.retryDelay
  }

  predicate Final(st: Status) {
    st.Success? || st.Canceled? || st.Timeout?
  }

  function Pow2(n: nat): (p: nat)
    ensures p >= 1
  {
    if n == 0 then 1 else 2 * Pow2(n - 1)
  }

  /** The wait after attempt `n`: doubled each time in exponential mode. */
  function Delay(cfg: RetryConfig, n: nat): nat {
    BaseDelay(cfg) * (if cfg.exponential then Pow2(n) else 1)
  }

  /** All waits between `k` attempts, in closed form. */
  function Backoff(cfg: RetryConfig, k: nat): nat
    requires k >= 1
  {
    BaseDelay(cfg) * (if cfg.exponential then Pow2(k - 1) - 1 else k - 1)
  }

  lemma BackoffStep(cfg: RetryConfig, k: nat)
    requires k >= 1
    ensures Backoff(cfg, k + 1) == Backoff(cfg, k) + Delay(cfg, k - 1)
  {
    var b := BaseDelay(cfg);
    if cfg.exponential {
      var p := Pow2(k - 1);
      assert Pow2(k) == 2 * p;
      assert b * (2 * p - 1) == b * (p - 1) + b * p;
    } else {
      assert b * k == b * (k - 1) + b * 1;
    }
  }

  /** `k` attempts run: those before the last fail plainly, and the last is final or the last allowed. */
  ghost predicate Settles(cfg: RetryConfig, world: World, k: nat) {
    1 <= k <= MaxAttempts(cfg) &&
    (forall i :: 0 <= i < k - 1 ==> !Final(world.outcome(i))) &&
    (Final(world.outcome(k - 1)) || k == MaxAttempts(cfg))
  }

  lemma SettlesOnce(cfg: RetryConfig, world: World, j: nat, k: nat)
    requires Settles(cfg, world, j) && Settles(cfg, world, k)
    ensures j == k
  {
  }

  ghost predicate NoCancel(world: World) {
    forall i :: !world.cancelBefore(i) && !world.cancelDuring(i)
  }

  /** The attempt loop. Exponential mode shifts a 32-bit one by the attempt number, so it needs at most 31 retries. */
  method RunWithRetry(cfg: RetryConfig, world: World) returns (r: Report)
    requires cfg.exponential ==> cfg.retryCount <= 31
    ensures NoCancel(world) ==>
              Settles(cfg, world, r.attempts) && r.status == world.outcome(r.attempts - 1) &&
                r.waited == Backoff(cfg, r.attempts)
    ensures r.attempts <= MaxAttempts(cfg)
    ensures cfg.retryCount >= 0 ==> r.attempts <= cfg.retryCount + 1
    ensures cfg.retryCount < 0 ==> r.attempts <= 1
    ensures NoCancel(world) && cfg.retryCount >= 0 &&
            (forall i :: world.outcome(i) !in {Success, Canceled, Timeout}) ==>
              r.attempts == cfg.retryCount + 1
    ensures NoCancel(world) ==>
              forall i :: 0 <= i < r.attempts - 1 ==> world.outcome(i) !in {Success, Canceled, Timeout}
    ensures NoCancel(world) && r.attempts <= cfg.retryCount ==>
              r.attempts >= 1 && world.outcome(r.attempts - 1) in {Success, Canceled, Timeout}
    ensures NoCancel(world) && r.attempts >= 1 ==>
              r.waited == (if cfg.retryDelay > 0 then cfg.retryDelay else 1000) *
                          (if cfg.exponential then Pow2(r.attempts - 1) - 1 else r.attempts - 1)
    ensures forall i :: 0 <= i < r.attempts ==> !world.cancelBefore(i)
    ensures forall i :: 0 <= i < r.attempts - 1 ==> !world.cancelDuring(i) && !Final(world.outcome(i))
    ensures r.status == Canceled || (r.attempts >= 1 && r.status == world.outcome(r.attempts - 1))
    ensures r.attempts < MaxAttempts(cfg) && (r.attempts == 0 || !Final(world.outcome(r.attempts - 1))) ==>
              r.status == Canceled &&
              (world.cancelBefore(r.attempts) || (r.attempts >= 1 && world.cancelDuring(r.attempts - 1)))
  {
    hide Backoff, Delay;
    var max := MaxAttempts(cfg);
    var last := Pending;
    var waited := 0;
    FirstBackoff(cfg);
    BackoffMeaning(cfg, max);
    for attempt := 0 to max
      invariant forall i :: 0 <= i < attempt ==>
                  !world.cancelBefore(i) && !world.cancelDuring(i) && !Final(world.outcome(i))
      invariant attempt < max ==> waited == Backoff(cfg, attempt + 1)
      invariant attempt == max ==> waited == Backoff(cfg, max)
      invariant attempt > 0 ==> last == world.outcome(attempt - 1)
    {
      BackoffMeaning(cfg, attempt + 1);
      if world.cancelBefore(attempt) {
        return Report(Canceled, attempt, waited);
      }
      last := world.outcome(attempt);
      if Final(last) {
        return Report(last, attempt + 1, waited);
      }
      if attempt + 1 >= max {
        return Report(last, attempt + 1, waited);
      }
      BackoffStep(cfg, attempt + 1);
      waited := waited + Delay(cfg, attempt);
      if world.cancelDuring(attempt) {
        return Report(Canceled, attempt + 1, waited);
      }
    }
    return Report(last, max, waited);
  }

  lemma BackoffMeaning(cfg: RetryConfig, k: nat)
    requires k >= 1
    ensures Backoff(cfg, k) == (if cfg.retryDelay > 0 then cfg.retryDelay else 1000) *
                               (if cfg.exponential then Pow2(k - 1) - 1 else k - 1)
  {
  }

  lemma FirstBackoff(cfg: RetryConfig)
    ensures Backoff(cfg, 1) == 0
  {
  }
}
