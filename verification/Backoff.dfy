/** Exponential backoff, in Go's wrapping 64-bit arithmetic. */
module Backoff {

  const SECOND: int := 1_000_000_000

  const TWO_63: int := 0x8000_0000_0000_0000
  const TWO_64: int := 0x1_0000_0000_0000_0000

  function Pow2(n: nat): (p: int)
    ensures p >= 1
  {
    if n == 0 then 1 else 2 * Pow2(n - 1)
  }

  /** Two's-complement truncation to int64. */
  function WrapInt64(x: int): int
  {
    (x + TWO_63) % TWO_64 - TWO_63
  }

  /** `time.Duration(1<<uint(count)) * time.Second`; shifting by 64 or more (or by a negative
      count, which becomes huge as a uint) gives zero. */
  function Delay(count: int): int
  {
    if 0 <= count < 64 then WrapInt64(WrapInt64(Pow2(count)) * SECOND) else 0
  }

  lemma {:induction false} Pow2Monotone(m: nat, n: nat)
    requires m <= n
    ensures Pow2(m) <= Pow2(n)
  {
    if m < n {
      Pow2Monotone(m, n - 1);
    }
  }

  lemma Pow2Of33()
    ensures Pow2(33) == 0x2_0000_0000
  {
    assert Pow2(8) == 256;
    assert Pow2(16) == 0x1_0000;
    assert Pow2(24) == 0x100_0000;
    assert Pow2(32) == 0x1_0000_0000;
  }

  /** Truncation changes a number exactly when the number does not fit in 64 bits. */
  lemma WrapFits(x: int)
    ensures WrapInt64(x) == x <==> -TWO_63 <= x < TWO_63
  {
  }

  lemma Pow2Doubles(n: nat)
    ensures Pow2(n + 1) == 2 * Pow2(n)
  {
  }

  /** The delay, in nanoseconds, is the intended 2^count seconds exactly for counts up to 33. */
  lemma DelayExact(count: nat)
    ensures Delay(count) == Pow2(count) * 1_000_000_000 <==> count <= 33
  {
    hide Pow2, WrapInt64;
    Pow2Of33();
    Pow2Doubles(33);
    WrapFits(Pow2(count));
    WrapFits(Pow2(count) * SECOND);
    WrapFits(WrapInt64(Pow2(count)) * SECOND);
    if count <= 33 {
      Pow2Monotone(count, 33);
    } else {
      Pow2Monotone(34, count);
      WrapRange(WrapInt64(Pow2(count)) * SECOND);
    }
  }

  lemma WrapRange(x: int)
    ensures -TWO_63 <= WrapInt64(x) < TWO_63
  {
  }

  /** Truncation gives the one number of 64 bits that differs by a multiple of 2^64. */
  lemma WrapIs(x: int)
    ensures -9_223_372_036_854_775_808 <= WrapInt64(x) <= 9_223_372_036_854_775_807
    ensures (x - WrapInt64(x)) % 18_446_744_073_709_551_616 == 0
  {
  }

  /** The delays of the default configuration: two, four, eight and sixteen seconds. */
  lemma FirstDelays()
    ensures Delay(1) == 2_000_000_000 && Delay(2) == 4_000_000_000
    ensures Delay(3) == 8_000_000_000 && Delay(4) == 16_000_000_000
  {
    assert Pow2(1) == 2 && Pow2(2) == 4 && Pow2(3) == 8 && Pow2(4) == 16;
  }

  lemma DelayOverflowsAt34()
    ensures Delay(34) == -1_266_874_889_709_551_616
  {
    Pow2Of33();
    assert Pow2(34) == 2 * Pow2(33);
  }

  /** Successive delays strictly increase as long as they are exact. */
  lemma DelayIncreases(m: nat, n: nat)
    requires m < n <= 33
    ensures 0 < Delay(m) < Delay(n)
  {
    DelayExact(m);
    DelayExact(n);
    Pow2Monotone(m + 1, n);
  }
}
