/** src/backoff.js with jitter switched off, the only way its two retry loops call it. */
module Backoff {

  /** `ms * 2^times`, by repeated doubling. */
  function Doubled(ms: nat, times: nat): (d: nat)
    ensures ms <= d
  {
    if times == 0 then ms else 2 * Doubled(ms, times - 1)
  }

  /** The delay before retry number `retryNumber`: doubling from `initialMs`, capped at `maxMs`. */
  function BackoffDelay(retryNumber: int, initialMs: nat, maxMs: nat): nat {
    var safeRetry := if retryNumber < 0 then 0 else retryNumber;
    var uncapped := Doubled(initialMs, safeRetry);
    if uncapped < maxMs then uncapped else maxMs
  }

  lemma {:induction false} DoubledMonotone(ms: nat, i: nat, j: nat)
    requires i <= j
    ensures Doubled(ms, i) <= Doubled(ms, j)
    decreases j
  {
    if i < j {
      DoubledMonotone(ms, i, j - 1);
    }
  }

  /** A later retry never waits less than an earlier one, and never more than the cap. */
  lemma BackoffDelayGrows(i: int, j: int, initialMs: nat, maxMs: nat)
    requires i <= j
    ensures BackoffDelay(i, initialMs, maxMs) <= BackoffDelay(j, initialMs, maxMs) <= maxMs
  {
    DoubledMonotone(initialMs, if i < 0 then 0 else i, if j < 0 then 0 else j);
  }

  /** The delays are fixed by the first and by doubling within the cap; a negative retry counts as the first. */
  lemma BackoffDoubles(retry: int, initialMs: nat, maxMs: nat)
    ensures retry <= 0 ==> BackoffDelay(retry, initialMs, maxMs) == if initialMs < maxMs then initialMs else maxMs
    ensures retry >= 0 ==>
              var delay := BackoffDelay(retry, initialMs, maxMs);
              BackoffDelay(retry + 1, initialMs, maxMs) == if 2 * delay < maxMs then 2 * delay else maxMs
  {
  }

  /** The k-th wait in a row, told by the one before it. */
  function NthWait(k: nat, first: nat, cap: nat): nat {
    var wait := if k <= 1 then first else 2 * NthWait(k - 1, first, cap);
    if wait < cap then wait else cap
  }

  lemma {:induction false} DelayIsNthWait(k: nat, first: nat, cap: nat)
    ensures BackoffDelay(k - 1, first, cap) == NthWait(k, first, cap)
  {
    BackoffDoubles(k - 1, first, cap);
    if k > 1 {
      DelayIsNthWait(k - 1, first, cap);
      BackoffDoubles(k - 2, first, cap);
    }
  }
}
