// The retry policy of the job queue.
module Retry {

  const MAX_JOB_ATTEMPTS := 3
  const JOB_BACKOFF_BASE_MS := 30_000
  const MAX_BACKOFF_MS := 300_000
  const DEFAULT_JOB_LEASE_MS := 300_000

  function Pow2(n: nat): (p: nat)
    ensures p > 0
  {
    if n == 0 then 1 else 2 * Pow2(n - 1)
  }

  function ComputeBackoffMs(attempts: nat, base: nat): (wait: nat)
    ensures wait <= MAX_BACKOFF_MS
  {
    var delay := base * Pow2(if attempts == 0 then 0 else attempts - 1);
    if delay < MAX_BACKOFF_MS then delay else MAX_BACKOFF_MS
  }

  // One attempt more doubles the wait, until the ceiling stops it.
  lemma BackoffDoubles(attempts: nat, base: nat)
    requires attempts > 0
    ensures var wait := ComputeBackoffMs(attempts, base);
      ComputeBackoffMs(attempts + 1, base) == if 2 * wait < MAX_BACKOFF_MS then 2 * wait else MAX_BACKOFF_MS
  {
    assert base * Pow2(attempts) == 2 * (base * Pow2(attempts - 1));
  }

  // The first retry waits exactly the base, and no retry waits longer than the ceiling or less than
  // an earlier one.
  lemma {:induction false} BackoffGrows(a: nat, b: nat, base: nat)
    requires a <= b && base <= MAX_BACKOFF_MS
    ensures ComputeBackoffMs(1, base) == base
    ensures base <= ComputeBackoffMs(a, base) <= ComputeBackoffMs(b, base) <= MAX_BACKOFF_MS
    decreases b
  {
    if b > 1 {
      BackoffDoubles(b - 1, base);
      BackoffGrows(if a < b then a else b - 1, b - 1, base);
    }
  }
}
