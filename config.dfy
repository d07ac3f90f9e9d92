/** The loop's configuration (internal/loop/config.go) and the backoff
    schedule the runner derives from it (calculateBackoff in
    internal/loop/runner.go). Durations are nanosecond counts; the backoff
    factor, a float64 in the source, is a natural number here. */
module LoopConfig {
  import opened Durations

  datatype Config = Config(timeout: nat, maxRetries: int, retryDelay: nat, backoffFactor: nat)

  /** DefaultConfig: a 30 minute step timeout, 3 retries, a 5 second first
      delay that doubles on every further retry. */
  function DefaultConfig(): (c: Config)
    ensures c.timeout == 30 * Minute && c.maxRetries == 3
    ensures Backoff(c, 1) == 5 * Second && Backoff(c, 2) == 2 * Backoff(c, 1)
  {
    Config(30 * Minute, 3, 5 * Second, 2)
  }

  function Pow(b: nat, e: nat): nat {
    if e == 0 then 1 else b * Pow(b, e - 1)
  }

  /** The wait before retry number `retryCount`: the first delay, multiplied
      by the factor once for every retry after the first. */
  function Backoff(cfg: Config, retryCount: int): nat {
    cfg.retryDelay * Pow(cfg.backoffFactor, if retryCount > 1 then retryCount - 1 else 0)
  }

  /** The first retry waits exactly the configured delay, and every further
      retry waits `backoffFactor` times as long as the one before. */
  lemma BackoffSchedule(cfg: Config, retryCount: int)
    ensures Backoff(cfg, 1) == cfg.retryDelay
    ensures retryCount >= 1 ==> Backoff(cfg, retryCount + 1) == cfg.backoffFactor * Backoff(cfg, retryCount)
  {
    if retryCount >= 1 {
      assert Pow(cfg.backoffFactor, retryCount) == cfg.backoffFactor * Pow(cfg.backoffFactor, retryCount - 1);
    }
  }

  /** With a factor of at least one the waits never shrink. */
  lemma {:induction false} BackoffGrows(cfg: Config, retryCount: int)
    requires cfg.backoffFactor >= 1 && retryCount >= 1
    ensures Backoff(cfg, retryCount) <= Backoff(cfg, retryCount + 1)
  {
    BackoffSchedule(cfg, retryCount);
    var w := Backoff(cfg, retryCount);
    assert w <= cfg.backoffFactor * w by {
      MulAtLeastOne(cfg.backoffFactor, w);
    }
  }

  lemma MulAtLeastOne(f: nat, w: nat)
    requires f >= 1
    ensures w <= f * w
  {
    assert f * w == w + (f - 1) * w;
  }

  /** With the defaults the waits are 5, 10 and 20 seconds for the first,
      second and third retry. */
  lemma DefaultSchedule()
    ensures Backoff(DefaultConfig(), 1) == 5 * Second
    ensures Backoff(DefaultConfig(), 2) == 10 * Second
    ensures Backoff(DefaultConfig(), 3) == 20 * Second
  {
    assert Pow(2, 2) == 4;
  }

  /** The default timeout is printed as `30m0s` in the timeout reason, and
      the default retry delay is five seconds. */
  lemma DefaultTimeoutText()
    ensures DurationString(DefaultConfig().timeout) == "30m0s"
    ensures DurationString(DefaultConfig().retryDelay) == "5s"
    ensures DefaultConfig().maxRetries == 3
  {
    ThirtyMinutes();
    FiveSeconds();
  }
}
