/** The delays of scheduleRetry (internal/orchestrator/orchestrator.go) as 64-bit nanosecond
    durations, with the wrap-around of `time.Duration(ms) * time.Millisecond` written out. */
module Backoff {
  import opened Domain

  const NS_PER_MS := 1_000_000
  const CONTINUATION_MS := 1000
  const BASE_MS := 10_000
  /** The largest whole number of milliseconds whose nanoseconds fit an int64. */
  const MAX_EXACT_MS := 9_223_372_036_854

  function Pow2(n: nat): (r: int)
    ensures r >= 1
  {
    if n == 0 then 1 else 2 * Pow2(n - 1)
  }

  /** Two's-complement truncation to 64 bits. */
  function Wrap64(x: int): int {
    var m := x % 0x1_0000_0000_0000_0000;
    if m > MAX_INT64 then m - 0x1_0000_0000_0000_0000 else m
  }

  function Millis(ms: int): int { Wrap64(ms * NS_PER_MS) }

  /** The failure backoff in milliseconds: exponential, cut off at the cap, with the attempt clamped
      to at least 1. */
  function FailureMs(attempt: int, cap: int): int {
    var clamped := if attempt < 1 then 1 else attempt;
    var ms := BASE_MS * Pow2(clamped - 1);
    if ms > cap then cap else ms
  }

  function RetryDelay(attempt: int, cap: int, continuation: bool): int {
    if continuation then Millis(CONTINUATION_MS) else Millis(FailureMs(attempt, cap))
  }

  // ---------- the shape of the backoff ----------

  lemma {:induction false} Pow2Grows(n: nat)
    ensures Pow2(n) > n
  {
    if n > 0 { Pow2Grows(n - 1); }
  }

  /** Consecutive attempts double the delay until the cap cuts it off; from then on it stays there. */
  lemma BackoffDoublesThenStays(attempt: int, cap: int)
    requires attempt >= 1
    ensures FailureMs(attempt, cap) <= cap
    ensures var twice := 2 * FailureMs(attempt, cap);
            FailureMs(attempt, cap) < cap ==>
              FailureMs(attempt + 1, cap) == if twice > cap then cap else twice
    ensures FailureMs(attempt, cap) == cap ==> FailureMs(attempt + 1, cap) == cap
  {
    assert Pow2(attempt) == 2 * Pow2(attempt - 1);
  }

  lemma {:induction false} BackoffMonotone(a: int, b: int, cap: int)
    requires a <= b
    ensures FailureMs(a, cap) <= FailureMs(b, cap)
    decreases b - a
  {
    if a < b {
      BackoffMonotone(a, b - 1, cap);
      if b - 1 >= 1 { BackoffDoublesThenStays(b - 1, cap); }
    }
  }

  /** Every cap is reached: after finitely many failures the delay is the cap. */
  lemma BackoffReachesCap(attempt: int, cap: int)
    requires attempt >= 1 && attempt >= cap
    ensures FailureMs(attempt, cap) == cap
  {
    Pow2Grows(attempt - 1);
  }

  // ---------- 64-bit durations ----------

  /** Wrapping keeps the value modulo 2^64, within the int64 range. */
  lemma WrapMeaning(x: int)
    ensures -0x8000_0000_0000_0000 <= Wrap64(x) <= 0x7fff_ffff_ffff_ffff
    ensures (Wrap64(x) - x) % 0x1_0000_0000_0000_0000 == 0
  {}

  lemma WrapIdentity(x: int)
    ensures Wrap64(x) == x <==> -MAX_INT64 - 1 <= x <= MAX_INT64
  {}

  /** The duration of every failure retry is exact precisely when the cap is within what an int64 of
      nanoseconds can hold; a larger (or very negative) configured cap wraps for all late attempts. */
  lemma DelayExactIffCapFits(cap: int)
    ensures (forall attempt :: Millis(FailureMs(attempt, cap)) == FailureMs(attempt, cap) * NS_PER_MS)
       <==> -MAX_EXACT_MS <= cap <= MAX_EXACT_MS
  {
    if -MAX_EXACT_MS <= cap <= MAX_EXACT_MS {
      forall attempt ensures Millis(FailureMs(attempt, cap)) == FailureMs(attempt, cap) * NS_PER_MS {
        WrapIdentity(FailureMs(attempt, cap) * NS_PER_MS);
      }
    } else {
      var late := if cap < 1 then 1 else cap;
      BackoffReachesCap(late, cap);
      assert FailureMs(late, cap) == cap;
      WrapIdentity(cap * NS_PER_MS);
      assert Millis(FailureMs(late, cap)) != FailureMs(late, cap) * NS_PER_MS;
    }
  }

  /** For a non-negative cap that fits, a failure retry never fires early or in the past: it waits
      min(10 s * 2^(attempt-1), cap). */
  lemma DelayFormula(attempt: int, cap: int)
    requires attempt >= 1 && 0 <= cap <= MAX_EXACT_MS
    ensures var ms := BASE_MS * Pow2(attempt - 1);
            RetryDelay(attempt, cap, false) == (if ms < cap then ms else cap) * NS_PER_MS
    ensures 0 <= RetryDelay(attempt, cap, false) <= MAX_INT64
  {
    DelayExactIffCapFits(cap);
  }
}
