/**
 * The retry policy of the generation call (VibeCodeApp.jsx:128-130, 172-178):
 * at most three retries after the first attempt, the k-th retry preceded by a
 * wait of `retryDelay * 2 ** (k - 1)` milliseconds.
 */
module Backoff {

  const MaxRetries: nat := 3
  const MaxAttempts: nat := MaxRetries + 1
  const RetryDelayMs: nat := 1000

  function Pow2(n: nat): (p: nat)
    ensures p >= 1
  {
    if n == 0 then 1 else 2 * Pow2(n - 1)
  }

  /** The wait before retry number `retry` (1-based), `retryDelay * (2 ** (retryCount - 1))`. */
  function BackoffDelay(retry: nat): (ms: nat)
    requires retry >= 1
    ensures ms >= RetryDelayMs
  {
    RetryDelayMs * Pow2(retry - 1)
  }

  /** The waits taken before the first `n` retries, in order. */
  function Delays(n: nat): (ds: seq<nat>)
    ensures |ds| == n
  {
    if n == 0 then [] else Delays(n - 1) + [BackoffDelay(n)]
  }

  /** Each wait is twice the previous one. */
  lemma DelayDoubles(retry: nat)
    requires retry >= 1
    ensures BackoffDelay(retry + 1) == 2 * BackoffDelay(retry)
  {
  }

  /** Element k of the schedule is the wait before retry k + 1. */
  lemma {:induction false} DelaysAt(n: nat, k: nat)
    requires k < n
    ensures Delays(n)[k] == BackoffDelay(k + 1)
  {
    if k < n - 1 {
      DelaysAt(n - 1, k);
    }
  }

  /** The whole schedule: 1000, 2000 and 4000 milliseconds. */
  lemma DelayTable()
    ensures Delays(MaxRetries) == [1000, 2000, 4000]
  {
    assert Pow2(2) == 4;
  }
}
