/** The crawler's retry periods after failed fetches. */
module Backoff {
  import opened Common

  const RETRIES := 56

  /** `FETCH_RETRY_TIMERS[i]` */
  function RetryTimer(i: nat): real
    requires i < RETRIES
  {
    if 10 * Power5(i) < 86400 then (10 * Power5(i)) as real else 86400.0
  }

  /** The sum of the first `k` retry periods. */
  function RetrySum(k: nat): real
    requires k <= RETRIES
  {
    if k == 0 then 0.0 else RetrySum(k - 1) + RetryTimer(k - 1)
  }

  lemma {:induction false} Power5Large(i: nat)
    requires i >= 6
    ensures Power5(i) >= 15625
  {
    if i == 6 {
      assert Power5(3) == 125;
      assert Power5(6) == 5 * (5 * (5 * Power5(3)));
    } else {
      Power5Large(i - 1);
    }
  }

  /** No period is shorter than the first. */
  lemma {:induction false} FirstTimerLeast(i: nat)
    requires i < RETRIES
    ensures RetryTimer(0) == 10.0 <= RetryTimer(i)
  {
    if i > 0 { FirstTimerLeast(i - 1); }
  }

  lemma {:induction false} RetrySumLarge(k: nat)
    requires 6 <= k <= RETRIES
    ensures RetrySum(k) == 39060.0 + 86400.0 * (k - 6) as real
  {
    if k == 6 {
      assert Power5(2) == 25 && Power5(3) == 125 && Power5(4) == 625 && Power5(5) == 3125;
      assert RetrySum(2) == 60.0;
      assert RetrySum(3) == 310.0;
      assert RetrySum(4) == 1560.0;
      assert RetrySum(5) == 7810.0;
    } else {
      RetrySumLarge(k - 1);
      Power5Large(k - 1);
    }
  }

  /** All periods together: 50 days and a little more. */
  lemma RetryTotal()
    ensures RetrySum(RETRIES) == 4359060.0
  {
    RetrySumLarge(RETRIES);
  }

  /** The retry periods: ten seconds, five times as long each time, and a day from the
      seventh on. */
  lemma RetryTimersAre(i: nat)
    requires i < RETRIES
    ensures RETRIES == 56
    ensures RetryTimer(0) == 10.0 && RetryTimer(1) == 50.0 && RetryTimer(2) == 250.0 && RetryTimer(3) == 1250.0
        && RetryTimer(4) == 6250.0 && RetryTimer(5) == 31250.0
    ensures i >= 6 ==> RetryTimer(i) == 86400.0
  {
    assert Power5(2) == 25 && Power5(4) == 625;
    if i >= 6 { Power5Large(i); }
  }
}
