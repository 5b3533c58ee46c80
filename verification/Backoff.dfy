/** The relay's default retry delay: exponential with full jitter, capped at a minute, in int64 nanoseconds. */
module Backoff {
  const Second: int := 1_000_000_000
  const MaxBackoff: int := 60 * Second
  const TwoTo64: int := 0x1_0000_0000_0000_0000
  const TwoTo43: int := 0x800_0000_0000

  function Pow2(k: nat): (p: nat)
    ensures p > 0
  {
    if k == 0 then 1 else 2 * Pow2(k - 1)
  }

  /** The int64 an unbounded result wraps to. */
  function Wrap64(x: int): int {
    var m := x % TwoTo64;
    if m < TwoTo64 / 2 then m else m - TwoTo64
  }

  /** `x << k` on int64; a count of 64 or more gives 0, which is what wrapping gives too. */
  function ShiftLeft(x: int, k: nat): int {
    Wrap64(x * Pow2(k))
  }

  function Min(a: int, b: int): int {
    if a < b then a else b
  }

  /** The intended curve, on unbounded integers: 1s, 2s, 4s, ... up to 60s; counts below one act as one. */
  function Curve(attempts: int): int {
    Min(Pow2(if attempts < 1 then 0 else attempts - 1), 60) * Second
  }

  lemma {:induction false} SmallPowers(n: nat)
    requires n <= 6
    ensures Pow2(n) == [1, 2, 4, 8, 16, 32, 64][n]
  {
    if n > 0 {
      SmallPowers(n - 1);
    }
  }

  /** 1s, 2s, 4s, 8s, 16s, 32s, and a minute from the seventh attempt on, in nanoseconds. */
  lemma CurveInCases(attempts: int)
    ensures attempts <= 1 ==> Curve(attempts) == 1_000_000_000
    ensures 2 <= attempts <= 6 ==> Curve(attempts) == [2, 4, 8, 16, 32][attempts - 2] * 1_000_000_000
    ensures attempts >= 7 ==> Curve(attempts) == 60_000_000_000
  {
    if attempts < 1 {
      SmallPowers(0);
    } else if attempts <= 6 {
      SmallPowers(attempts - 1);
    } else {
      SmallPowers(6);
      Pow2Monotone(6, attempts - 1);
    }
  }

  /** Two's complement: the one int64 that is congruent modulo 2^64. */
  lemma WrapsToInt64(x: int)
    ensures -9223372036854775808 <= Wrap64(x) <= 9223372036854775807
    ensures exists q :: x == Wrap64(x) + q * 18446744073709551616
  {
    var q := x / TwoTo64;
    assert x == x % TwoTo64 + q * 18446744073709551616;
    assert x == (x % TwoTo64 - TwoTo64) + (q + 1) * 18446744073709551616;
  }

  lemma {:induction false} Pow2Monotone(a: nat, b: nat)
    requires a <= b
    ensures Pow2(a) <= Pow2(b)
  {
    if a < b {
      Pow2Monotone(a, b - 1);
    }
  }

  lemma {:induction false} Pow2Split(a: nat, b: nat)
    ensures Pow2(a + b) == Pow2(a) * Pow2(b)
  {
    if a > 0 {
      Pow2Split(a - 1, b);
      assert Pow2(a + b) == 2 * Pow2(a + b - 1);
    }
  }

  lemma Pow2Values()
    ensures Pow2(6) == 64 && Pow2(33) == 0x2_0000_0000 && Pow2(34) == 0x4_0000_0000
  {
    assert Pow2(6) == 64;
    assert Pow2(12) == 64 * 64 by { Pow2Split(6, 6); }
    assert Pow2(24) == 4096 * 4096 by { Pow2Split(12, 12); }
    assert Pow2(30) == 16777216 * 64 by { Pow2Split(24, 6); }
    assert Pow2(33) == 2 * Pow2(32) && Pow2(32) == 2 * Pow2(31) && Pow2(31) == 2 * Pow2(30);
    assert Pow2(34) == 2 * Pow2(33);
  }

  /** Wrapping keeps divisibility by 2^43. */
  lemma WrapKeepsMultiple(q: int)
    ensures exists r :: Wrap64(TwoTo43 * q) == TwoTo43 * r
  {
    var t, r := q / 0x20_0000, q % 0x20_0000;
    assert TwoTo43 * q == TwoTo64 * t + TwoTo43 * r;
    assert (TwoTo43 * q) % TwoTo64 == TwoTo43 * r;
    if TwoTo43 * r < TwoTo64 / 2 {
      assert Wrap64(TwoTo43 * q) == TwoTo43 * r;
    } else {
      assert Wrap64(TwoTo43 * q) == TwoTo43 * (r - 0x20_0000);
    }
  }

  /** A shift that overflowed is a multiple of 2^43 ns: not positive, or far above a minute. */
  lemma OverflowNeverLooksShort(k: nat)
    requires k >= 34
    ensures exists r :: ShiftLeft(Second, k) == TwoTo43 * r
    ensures ShiftLeft(Second, k) <= 0 || ShiftLeft(Second, k) > MaxBackoff
  {
    Pow2Split(34, k - 34);
    Pow2Values();
    var rest := Pow2(k - 34);
    var q := 1953125 * rest;
    assert Second * Pow2(k) == TwoTo43 * q;
    WrapKeepsMultiple(q);
  }

  lemma NoOverflowBelow34(k: nat)
    requires k < 34
    ensures ShiftLeft(Second, k) == Second * Pow2(k)
    ensures k < 6 ==> Pow2(k) < 60
    ensures k >= 6 ==> Pow2(k) >= 60
  {
    Pow2Values();
    Pow2Monotone(k, 33);
    if k < 6 {
      Pow2Monotone(k, 5);
      assert Pow2(5) == 32;
    } else {
      Pow2Monotone(6, k);
    }
  }

  function Clamp(base: int): int {
    if base <= 0 || base > MaxBackoff then MaxBackoff else base
  }

  /** For every attempt count, however large, the wrapping shift followed by the clamp is exactly the curve. */
  lemma ShiftThenClampIsCurve(n: nat)
    requires n >= 1
    ensures Clamp(ShiftLeft(Second, n - 1)) == Curve(n)
  {
    if n - 1 < 34 {
      NoOverflowBelow34(n - 1);
    } else {
      OverflowNeverLooksShort(n - 1);
      Pow2Values();
      Pow2Monotone(6, n - 1);
    }
  }

  /** The jitter bound is positive, so drawing below it never fails, and the delay stays under a minute. */
  method DefaultBackoff(attempts: int, draw: nat) returns (delay: int)
    ensures Curve(attempts) > 0
    ensures delay == draw % Curve(attempts)
    ensures 0 <= delay < 60_000_000_000
  {
    var n := attempts;
    if n < 1 {
      n := 1;
    }
    var base := ShiftLeft(Second, n - 1);
    ShiftThenClampIsCurve(n);
    if base <= 0 || base > MaxBackoff {
      base := MaxBackoff;
    }
    // rand.Int64N(base): some value below a positive bound.
    delay := draw % base;
  }
}
