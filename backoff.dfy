/** The reconnect schedule both live-catalog hooks use: after a failed
    connection the next attempt waits `min(1000 * 2^attempts, 30000)`
    milliseconds, and no more than five attempts are made in a row. */
module Backoff {
  import opened Common

  const MaxReconnectAttempts: nat := 5
  const InitialReconnectDelay: int := 1000
  const MaxReconnectDelay: int := 30000

  function Pow2(n: nat): (p: nat)
    ensures p >= 1
  {
    if n == 0 then 1 else 2 * Pow2(n - 1)
  }

  lemma {:induction false} Pow2Monotone(a: nat, b: nat)
    requires a <= b
    ensures Pow2(a) <= Pow2(b)
    decreases b
  {
    if a < b {
      Pow2Monotone(a, b - 1);
    }
  }

  /** `Math.min(INITIAL_RECONNECT_DELAY * Math.pow(2, attempts), MAX_RECONNECT_DELAY)`. */
  function ReconnectDelay(attempts: nat): (d: int)
    ensures InitialReconnectDelay <= d <= MaxReconnectDelay
  {
    Min(InitialReconnectDelay * Pow2(attempts), MaxReconnectDelay)
  }

  /** The delay never shrinks as attempts accumulate. */
  lemma DelayMonotone(a: nat, b: nat)
    requires a <= b
    ensures ReconnectDelay(a) <= ReconnectDelay(b)
  {
    Pow2Monotone(a, b);
  }

  /** Within the five permitted attempts the cap is never hit: the delay is
      exactly `1000 * 2^attempts`, at most 16000, and doubles each time. */
  lemma DelayBelowCap(a: nat)
    requires a < MaxReconnectAttempts
    ensures ReconnectDelay(a) == InitialReconnectDelay * Pow2(a) <= 16000
    ensures a + 1 < MaxReconnectAttempts ==> ReconnectDelay(a + 1) == 2 * ReconnectDelay(a)
  {
    Pow2Monotone(a, 4);
    if a + 1 < MaxReconnectAttempts {
      Pow2Monotone(a + 1, 4);
    }
  }

  /** The concrete schedule 1000, 2000, 4000, 8000, 16000. */
  lemma DelaySchedule()
    ensures seq(5, k requires 0 <= k < 5 => ReconnectDelay(k)) == [1000, 2000, 4000, 8000, 16000]
  {
    assert Pow2(4) == 16;
  }

  /** From the fifth doubling on the cap applies. */
  lemma {:induction false} DelayCapped(a: nat)
    requires a >= MaxReconnectAttempts
    ensures ReconnectDelay(a) == MaxReconnectDelay
  {
    Pow2Monotone(5, a);
    assert Pow2(5) == 32;
  }

  /** The waits of the first `n` reconnects, added up. */
  function TotalWait(n: nat): (t: int)
    ensures t >= n * InitialReconnectDelay
  {
    if n == 0 then 0 else TotalWait(n - 1) + ReconnectDelay(n - 1)
  }

  /** A full run of five failed reconnects waits 31 seconds in total before
      the hook gives up. */
  lemma FullRunWait()
    ensures TotalWait(MaxReconnectAttempts) == 31000
  {
    DelaySchedule();
  }
}
