/** Retry delays (src/hooks/useBettingData.ts:55, 136, 140): the base delay
    `min(1000 * 2^attempts, 30000)` in milliseconds, plus jitter for reconnects. */
module Backoff {

  const InitialDelay: nat := 1000
  const MaxDelay: nat := 30000
  const JitterSpan: real := 1000.0

  function Pow2(n: nat): (p: nat)
    ensures p >= 1
  {
    if n == 0 then 1 else 2 * Pow2(n - 1)
  }

  /** Math.min(1000 * Math.pow(2, attempts), 30000). */
  function BaseDelay(attempts: nat): (d: nat)
    ensures InitialDelay <= d <= MaxDelay
  {
    var raw := InitialDelay * Pow2(attempts);
    if raw < MaxDelay then raw else MaxDelay
  }

  /** The reconnect delay: the base delay plus `Math.random() * 1000`, where
      `random` is the value in [0, 1) that Math.random produced. */
  function ReconnectDelay(attempts: nat, random: real): (d: real)
    requires 0.0 <= random < 1.0
    ensures BaseDelay(attempts) as real <= d < BaseDelay(attempts) as real + JitterSpan
  {
    BaseDelay(attempts) as real + random * JitterSpan
  }

  /** The first delays double from one second. */
  lemma BaseDelayDoubles()
    ensures BaseDelay(0) == 1000 && BaseDelay(1) == 2000 && BaseDelay(2) == 4000
    ensures BaseDelay(3) == 8000 && BaseDelay(4) == 16000
  {
  }

  lemma {:induction false} Pow2AtLeast32(n: nat)
    requires n >= 5
    ensures Pow2(n) >= 32
  {
    if n > 5 {
      Pow2AtLeast32(n - 1);
    }
  }

  /** From the fifth attempt on the delay is capped at 30 seconds. */
  lemma BaseDelayCapped(attempts: nat)
    requires attempts >= 5
    ensures BaseDelay(attempts) == MaxDelay
  {
    Pow2AtLeast32(attempts);
  }

  /** Below the cap, each further attempt doubles the delay. */
  lemma BaseDelayBelowCap(attempts: nat)
    requires attempts < 5
    ensures BaseDelay(attempts) == InitialDelay * Pow2(attempts) && BaseDelay(attempts + 1) <= MaxDelay
    ensures attempts < 4 ==> BaseDelay(attempts + 1) == 2 * BaseDelay(attempts)
  {
    assert Pow2(1) == 2 && Pow2(2) == 4 && Pow2(3) == 8 && Pow2(4) == 16 && Pow2(5) == 32;
    assert attempts == 0 || attempts == 1 || attempts == 2 || attempts == 3 || attempts == 4;
  }

  lemma {:induction false} Pow2Monotone(m: nat, n: nat)
    requires m <= n
    ensures Pow2(m) <= Pow2(n)
  {
    if m < n {
      Pow2Monotone(m, n - 1);
    }
  }

  /** More attempts never shorten the wait. */
  lemma BaseDelayMonotone(m: nat, n: nat)
    requires m <= n
    ensures BaseDelay(m) <= BaseDelay(n)
  {
    Pow2Monotone(m, n);
  }
}
