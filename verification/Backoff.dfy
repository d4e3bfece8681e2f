/** `retry`: repeated calls with exponential backoff. Durations and the random draw are reals. */
module Backoff {
  datatype RetryConfig = RetryConfig(
    maxAttempts: nat,
    baseDelay: real,
    maxDelay: real,
    backoffFactor: real,
    jitter: bool)

  datatype Outcome<T> = Success(value: T) | Failure(error: string, retryable: bool)

  /** Durations are not negative; a negative factor makes the source panic. */
  predicate Sensible(cfg: RetryConfig) {
    cfg.baseDelay >= 0.0 && cfg.maxDelay >= 0.0 && cfg.backoffFactor >= 0.0
  }

  function Power(b: real, n: nat): real {
    if n == 0 then 1.0 else b * Power(b, n - 1)
  }

  function Min(a: real, b: real): real {
    if a <= b then a else b
  }

  function Capped(cfg: RetryConfig, attempt: nat): real {
    Min(cfg.baseDelay * Power(cfg.backoffFactor, attempt), cfg.maxDelay)
  }

  function Delay(cfg: RetryConfig, attempt: nat, draw: real): real {
    var capped := Capped(cfg, attempt);
    if cfg.jitter then capped * (0.5 + draw) else capped
  }

  /** The outcome asks for another call. */
  predicate CanRetry<T>(outcome: Outcome<T>) {
    outcome.Failure? && outcome.retryable
  }

  function Sum(s: seq<real>): real {
    if s == [] then 0.0 else Sum(s[..|s| - 1]) + s[|s| - 1]
  }

  /**
   Main result: the operation is called until its first success, its first error that
   cannot be retried, or the last attempt, and that outcome is returned; between calls it
   sleeps for the calculated delays.
   */
  method Retry<T>(cfg: RetryConfig, outcomes: nat -> Outcome<T>, draws: nat -> real)
    returns (result: Outcome<T>, calls: nat, slept: seq<real>)
    ensures 1 <= calls && (calls <= cfg.maxAttempts || calls == 1)
    ensures result == outcomes(calls - 1)
    ensures CanRetry(result) ==> calls == if cfg.maxAttempts == 0 then 1 else cfg.maxAttempts
    ensures forall i: nat | i < calls - 1 :: CanRetry(outcomes(i))
    ensures |slept| == calls - 1 && forall i | 0 <= i < |slept| :: slept[i] == Delay(cfg, i, draws(i))
  {
    var attempt: nat := 0;
    slept := [];
    while true
      invariant |slept| == attempt && (attempt == 0 || attempt < cfg.maxAttempts)
      invariant forall i: nat | i < attempt :: CanRetry(outcomes(i))
      invariant forall i | 0 <= i < |slept| :: slept[i] == Delay(cfg, i, draws(i))
      decreases cfg.maxAttempts - attempt
    {
      result := outcomes(attempt);
      attempt := attempt + 1;
      if result.Success? || !result.retryable || attempt >= cfg.maxAttempts {
        return result, attempt, slept;
      }
      slept := slept + [Delay(cfg, attempt - 1, draws(attempt - 1))];
    }
  }

  lemma {:induction false} PowerGrows(b: real, n: nat)
    requires b >= 1.0
    ensures 1.0 <= Power(b, n) <= Power(b, n + 1)
  {
    if n > 0 {
      PowerGrows(b, n - 1);
    }
    assert (b - 1.0) * Power(b, n) >= 0.0;
  }

  lemma {:induction false} PowerNotNegative(b: real, n: nat)
    requires b >= 0.0
    ensures Power(b, n) >= 0.0
  {
    if n > 0 {
      PowerNotNegative(b, n - 1);
    }
  }

  lemma {:induction false} ScalingKeepsOrder(c: real, x: real, y: real)
    requires c >= 0.0 && x <= y
    ensures c * x <= c * y
  {
    assert c * (y - x) >= 0.0;
  }

  lemma {:induction false} CappedGrows(cfg: RetryConfig, i: nat)
    requires Sensible(cfg) && cfg.backoffFactor >= 1.0
    ensures Capped(cfg, i) <= Capped(cfg, i + 1) <= cfg.maxDelay
  {
    PowerGrows(cfg.backoffFactor, i);
    ScalingKeepsOrder(cfg.baseDelay, Power(cfg.backoffFactor, i), Power(cfg.backoffFactor, i + 1));
  }

  /** Without jitter, the first delay is the base delay, capped. */
  lemma FirstDelay(cfg: RetryConfig, draw: real)
    requires !cfg.jitter
    ensures Delay(cfg, 0, draw) == if cfg.baseDelay <= cfg.maxDelay then cfg.baseDelay else cfg.maxDelay
  {
  }

  /** A delay below the maximum is followed by the factor times it, capped, whatever the factor. */
  lemma {:induction false} DelayIsMultiplied(cfg: RetryConfig, i: nat, draw: real)
    requires !cfg.jitter && Delay(cfg, i, draw) < cfg.maxDelay
    ensures var product := cfg.backoffFactor * Delay(cfg, i, draw);
            Delay(cfg, i + 1, draw) == if product <= cfg.maxDelay then product else cfg.maxDelay
  {
    var b, f, x := cfg.baseDelay, cfg.backoffFactor, Power(cfg.backoffFactor, i);
    assert Power(f, i + 1) == f * x;
    assert b * (f * x) == f * (b * x);
  }

  /** With a factor of at least 1, that holds for every delay. */
  lemma {:induction false} DelayGrowsByFactor(cfg: RetryConfig, i: nat, draw: real)
    requires Sensible(cfg) && !cfg.jitter && cfg.backoffFactor >= 1.0
    ensures var product := cfg.backoffFactor * Delay(cfg, i, draw);
            Delay(cfg, i + 1, draw) == if product <= cfg.maxDelay then product else cfg.maxDelay
  {
    if Delay(cfg, i, draw) < cfg.maxDelay {
      DelayIsMultiplied(cfg, i, draw);
    } else {
      CappedGrows(cfg, i);
      ScalingKeepsOrder(cfg.maxDelay, 1.0, cfg.backoffFactor);
    }
  }

  /** Jitter multiplies the delay by a half plus the draw. */
  lemma JitterScales(cfg: RetryConfig, i: nat, draw: real, other: real)
    requires cfg.jitter
    ensures Delay(cfg, i, draw) == Delay(cfg.(jitter := false), i, other) * (0.5 + draw)
  {
  }

  lemma {:induction false} StepwiseGrowth(f: nat -> real, i: nat, j: nat)
    requires i <= j && forall k: nat :: f(k) <= f(k + 1)
    ensures f(i) <= f(j)
    decreases j - i
  {
    if i < j {
      StepwiseGrowth(f, i + 1, j);
      assert f(i) <= f(i + 1);
    }
  }

  /** Without jitter and with a factor of at least 1, delays never decrease or exceed the maximum. */
  lemma {:induction false} DelaysGrowToMaximum(cfg: RetryConfig, i: nat, j: nat, draw: real)
    requires Sensible(cfg) && !cfg.jitter && cfg.backoffFactor >= 1.0 && i <= j
    ensures Delay(cfg, i, draw) <= Delay(cfg, j, draw) <= cfg.maxDelay
  {
    var f := (k: nat) => Capped(cfg, k);
    forall k: nat ensures f(k) <= f(k + 1) {
      CappedGrows(cfg, k);
    }
    StepwiseGrowth(f, i, j);
    assert Capped(cfg, i) == f(i) && Capped(cfg, j) == f(j);
  }

  lemma {:induction false} JitterIsBounded(c: real, max: real, f: real)
    requires 0.0 <= c <= max && 0.5 <= f <= 1.5
    ensures 0.0 <= c * f <= 1.5 * max
  {
    assert c * (1.5 - f) >= 0.0;
  }

  lemma {:induction false} DelayIsBounded(cfg: RetryConfig, i: nat, draw: real)
    requires Sensible(cfg) && 0.0 <= draw < 1.0
    ensures 0.0 <= Delay(cfg, i, draw) <= 1.5 * cfg.maxDelay
  {
    PowerNotNegative(cfg.backoffFactor, i);
    var capped := Capped(cfg, i);
    assert capped >= 0.0 by {
      assert cfg.baseDelay * Power(cfg.backoffFactor, i) >= 0.0;
    }
    JitterIsBounded(capped, cfg.maxDelay, 0.5 + draw);
  }

  lemma {:induction false} SumIsBounded(s: seq<real>, bound: real)
    requires bound >= 0.0 && forall i | 0 <= i < |s| :: 0.0 <= s[i] <= bound
    ensures 0.0 <= Sum(s) <= bound * |s| as real
  {
    if s != [] {
      SumIsBounded(s[..|s| - 1], bound);
      assert bound * |s| as real == bound * (|s| - 1) as real + bound;
    }
  }

  lemma {:induction false} LimitedSumIsBounded(s: seq<real>, bound: real, n: nat)
    requires bound >= 0.0 && |s| <= n && forall i | 0 <= i < |s| :: 0.0 <= s[i] <= bound
    ensures 0.0 <= Sum(s) <= bound * n as real
  {
    SumIsBounded(s, bound);
    ScalingKeepsOrder(bound, |s| as real, n as real);
  }

  lemma {:induction false} EachSleepIsBounded(cfg: RetryConfig, draws: nat -> real, slept: seq<real>)
    requires Sensible(cfg) && (forall i: nat :: 0.0 <= draws(i) < 1.0)
    requires forall i | 0 <= i < |slept| :: slept[i] == Delay(cfg, i, draws(i))
    ensures forall i | 0 <= i < |slept| :: 0.0 <= slept[i] <= 1.5 * cfg.maxDelay
  {
    forall i | 0 <= i < |slept| ensures 0.0 <= slept[i] <= 1.5 * cfg.maxDelay {
      DelayIsBounded(cfg, i, draws(i));
    }
  }

  /** Main result: the total sleep is at most 1.5 times the maximum delay for each retry that is allowed. */
  lemma {:induction false} TotalSleepIsBounded(cfg: RetryConfig, draws: nat -> real, slept: seq<real>)
    requires Sensible(cfg) && (forall i: nat :: 0.0 <= draws(i) < 1.0)
    requires 1 <= cfg.maxAttempts && |slept| <= cfg.maxAttempts - 1
    requires forall i | 0 <= i < |slept| :: slept[i] == Delay(cfg, i, draws(i))
    ensures 0.0 <= Sum(slept) <= 1.5 * cfg.maxDelay * (cfg.maxAttempts - 1) as real
  {
    EachSleepIsBounded(cfg, draws, slept);
    LimitedSumIsBounded(slept, 1.5 * cfg.maxDelay, cfg.maxAttempts - 1);
  }
}
