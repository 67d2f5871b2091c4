/** When a failed provider step is retried, and after what delay. */
module ProviderRetry {
  import opened Providers

  const RETRY_MAX_RETRIES := 5
  const RETRY_INITIAL_DELAY_MS := 2_000
  const RETRY_MAX_DELAY_MS := 30_000

  /** The precedence of the classifiers; `overflowText` is the verdict of the overflow classifier. */
  function IsRetryable(e: ProviderError): bool {
    if e.nonRetryableText then false
    else if e.overflowText then false
    else
      match e.kind
      case AuthError => false
      case TimeoutError => true
      case RateLimitError => e.hint.None? || e.hint.value
      case ResponseError(status) =>
        if e.hint.Some? then e.hint.value
        else (status.Some? && status.value >= 500) || e.retryableText
      case OtherError => if e.hint.Some? then e.hint.value else e.retryableText
  }

  /** The server's own word on whether to retry, or what the failure looks like without one. */
  predicate SaysRetry(e: ProviderError) {
    if e.hint.Some? then e.hint.value
    else
      || e.kind.RateLimitError? || (e.retryableText && !e.kind.TimeoutError?)
      || (e.kind.ResponseError? && e.kind.status.Some? && e.kind.status.value >= 500)
  }

  /**
   * Context overflows, failures of authentication and errors known to be final are never retried; of the
   * others, timeouts always, and the rest as the server says.
   */
  lemma {:induction false} RetryRule(e: ProviderError)
    ensures IsRetryable(e) <==>
            && !e.overflowText && !e.nonRetryableText && !e.kind.AuthError?
            && (e.kind.TimeoutError? || SaysRetry(e))
  {
  }

  type Jitter = r: real | 0.0 <= r < 1.0 witness 0.0

  function Ceil(x: real): int {
    -((-x).Floor)
  }

  function Doubled(n: nat): (r: nat)
    ensures r >= 1
  {
    if n == 0 then 1 else 2 * Doubled(n - 1)
  }

  lemma {:induction false} NonNegative(x: real, y: real)
    requires x >= 0.0 && y >= 0.0
    ensures x * y >= 0.0
  {
  }

  lemma {:induction false} Shrinks(x: real, y: real)
    requires x >= 0.0 && 0.0 <= y < 1.0
    ensures 0.0 <= x * y <= x
  {
    NonNegative(x, y);
    NonNegative(x, 1.0 - y);
    assert x * (1.0 - y) == x - x * y;
  }

  /** The jittered part of a delay. */
  function Share(x: real, jitter: Jitter): (r: real)
    requires x >= 0.0
    ensures 0.0 <= r <= x
  {
    Shrinks(x, jitter);
    x * jitter
  }

  /** The delay in milliseconds before retry `attempt`, without server headers. */
  function RetryDelayMs(attempt: nat, jitter: Jitter): int
    requires attempt >= 1
  {
    var base := RETRY_INITIAL_DELAY_MS * Doubled(attempt - 1);
    var delay := Ceil(base as real + Share(base as real * 0.25, jitter));
    if delay < RETRY_MAX_DELAY_MS then delay else RETRY_MAX_DELAY_MS
  }

  lemma {:induction false} DoubledGrows(m: nat, n: nat)
    requires m <= n
    ensures 1 <= Doubled(m) <= Doubled(n)
  {
    if n > 0 {
      DoubledGrows(if m == n then m - 1 else m, n - 1);
    }
  }

  lemma {:induction false} CeilBetween(base: int, quarter: nat, extra: real)
    requires 0.0 <= extra <= quarter as real
    ensures base <= Ceil(base as real + extra) <= base + quarter
  {
  }

  lemma {:induction false} DelayBetween(attempt: nat, jitter: Jitter)
    requires attempt >= 1
    ensures var base := RETRY_INITIAL_DELAY_MS * Doubled(attempt - 1);
      && (if base < RETRY_MAX_DELAY_MS then base else RETRY_MAX_DELAY_MS) <= RetryDelayMs(attempt, jitter)
      && 4 * RetryDelayMs(attempt, jitter) <= 5 * base
      && RetryDelayMs(attempt, jitter) <= RETRY_MAX_DELAY_MS
  {
    var base := RETRY_INITIAL_DELAY_MS * Doubled(attempt - 1);
    var quarter := 500 * Doubled(attempt - 1);
    assert base == 4 * quarter;
    CeilBetween(base, quarter, Share(base as real * 0.25, jitter));
  }

  /** A wait is the whole milliseconds of a doubling base and a random share of its quarter, up to the cap. */
  lemma {:induction false} JitterAddsUpToAQuarter(attempt: nat, jitter: Jitter)
    requires attempt >= 1
    ensures var base := 2_000 * Doubled(attempt - 1);
      var exact := base as real + Share(base as real / 4.0, jitter);
      if exact > 30_000.0 then RetryDelayMs(attempt, jitter) == 30_000
      else exact <= RetryDelayMs(attempt, jitter) as real < exact + 1.0
  {
  }

  /** Whatever the jitters, a later attempt never waits less. */
  lemma {:induction false} DelaysNeverDecrease(m: nat, n: nat, j: Jitter, k: Jitter)
    requires 1 <= m < n
    ensures RetryDelayMs(m, j) <= RetryDelayMs(n, k) <= RETRY_MAX_DELAY_MS
  {
    DelayBetween(m, j);
    DelayBetween(n, k);
    DoubledGrows(m, n - 1);
    assert Doubled(m) == 2 * Doubled(m - 1);
  }

  /** The longest time, in milliseconds, slept over the first `n` retries of one step. */
  function SleepBudget(n: nat): nat
    requires n <= RETRY_MAX_RETRIES
  {
    if n == 0 then 0
    else if n == 1 then 2_500
    else if n == 2 then 7_500
    else if n == 3 then 17_500
    else if n == 4 then 37_500
    else 67_500
  }

  /** The shortest time. */
  function SleepFloor(n: nat): nat
    requires n <= RETRY_MAX_RETRIES
  {
    if n == 0 then 0
    else if n == 1 then 2_000
    else if n == 2 then 6_000
    else if n == 3 then 14_000
    else if n == 4 then 30_000
    else 60_000
  }

  lemma {:induction false} DelayWithinBudget(attempt: nat, jitter: Jitter)
    requires 1 <= attempt <= RETRY_MAX_RETRIES
    ensures SleepFloor(attempt) - SleepFloor(attempt - 1)
         <= RetryDelayMs(attempt, jitter)
         <= SleepBudget(attempt) - SleepBudget(attempt - 1)
  {
    assert Doubled(1) == 2 && Doubled(2) == 4 && Doubled(3) == 8 && Doubled(4) == 16;
    DelayBetween(attempt, jitter);
  }

  /** The time slept over the first `n` retries of one step. */
  function SleptMs(jitters: seq<Jitter>): int {
    if jitters == [] then 0
    else SleptMs(jitters[..|jitters| - 1]) + RetryDelayMs(|jitters|, jitters[|jitters| - 1])
  }

  /** A step retried to exhaustion sleeps between 60 and 67.5 seconds. */
  lemma {:induction false} FullRetrySleep(a: Jitter, b: Jitter, c: Jitter, d: Jitter, e: Jitter)
    ensures 60_000 <= SleptMs([a, b, c, d, e]) <= 67_500
  {
    var all := [a, b, c, d, e];
    assert all[..4] == [a, b, c, d] && all[..4][..3] == [a, b, c] && [a, b, c][..2] == [a, b] && [a, b][..1] == [a];
    assert [a][..0] == [];
    assert Doubled(1) == 2 && Doubled(2) == 4 && Doubled(3) == 8 && Doubled(4) == 16;
    DelayBetween(1, a);
    DelayBetween(2, b);
    DelayBetween(3, c);
    DelayBetween(4, d);
    DelayBetween(5, e);
    assert SleptMs([a]) == SleptMs([]) + RetryDelayMs(1, a);
    assert SleptMs([a, b]) == SleptMs([a]) + RetryDelayMs(2, b);
    assert SleptMs([a, b, c]) == SleptMs([a, b]) + RetryDelayMs(3, c);
    assert SleptMs([a, b, c, d]) == SleptMs([a, b, c]) + RetryDelayMs(4, d);
  }
}
