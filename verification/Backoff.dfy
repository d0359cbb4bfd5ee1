/**
 Backoff with jitter, in nanoseconds: a saturating power of two times the configured delay, moved by at
 most a quarter either way.  An arithmetic overflow of `Duration`, which panics, is `None`.
 */
module Backoff {
  import opened Wrappers
  import opened Json

  const MAX_DURATION := 0x1_0000_0000_0000_0000 * 1_000_000_000 - 1
  const MILLI := 1_000_000

  function Pow2(e: nat): (r: nat)
    ensures r > 0
  {
    if e == 0 then 1 else 2 * Pow2(e - 1)
  }

  /** `2u32.saturating_pow(e)`. */
  function SaturatingPow2(e: nat): nat { if e < 32 then Pow2(e) else 0xFFFF_FFFF }

  /** `reconnect_delay * 2u32.saturating_pow(attempt - 1)`. */
  function BaseDelay(d: nat, attempt: nat): Option<nat>
    requires attempt >= 1
  {
    var base := d * SaturatingPow2(attempt - 1);
    if base <= MAX_DURATION then Some(base) else None
  }

  /** A quarter of the base in whole milliseconds, `as_millis() as u64` truncating. */
  function JitterRange(base: nat): nat { base / MILLI % 0x1_0000_0000_0000_0000 / 4 }

  function Jittered(base: nat, seed: u64): Option<nat> {
    var range := JitterRange(base);
    if range == 0 then Some(base) else
    var offset: int := seed % (range * 2) - range;
    if offset < 0 then Some(if base >= -offset * MILLI then base + offset * MILLI else 0)
    else if base + offset * MILLI <= MAX_DURATION then Some(base + offset * MILLI)
    else None
  }

  function Delay(d: nat, attempt: nat, seed: u64): Option<nat>
    requires attempt >= 1
  {
    match BaseDelay(d, attempt) case Some(base) => Jittered(base, seed) case None => None
  }

  /** The attempt's delay cannot overflow, whatever the jitter. */
  predicate NoOverflow(d: nat, attempt: nat)
    requires attempt >= 1
  {
    5 * (d * SaturatingPow2(attempt - 1)) <= 4 * MAX_DURATION
  }

  /** A delay that does not overflow is within a quarter of its base, and below the upper end. */
  lemma JitterIsAQuarter(base: nat, seed: u64)
    ensures
      var delay := Jittered(base, seed);
      delay.Some? ==> 3 * base <= 4 * delay.value <= 5 * base && (base > 0 ==> 4 * delay.value < 5 * base)
    ensures 5 * base <= 4 * MAX_DURATION ==> Jittered(base, seed).Some?
  {
    var range := JitterRange(base);
    assert 4 * range <= base / MILLI;
    assert 4 * range * MILLI <= base;
    if range > 0 {
      var raw := seed % (range * 2);
      assert 0 <= raw < range * 2;
    }
  }

  /** A quarter of the base, in whole milliseconds. */
  function Quarter(base: nat): nat {
    var millis: nat := base / MILLI;
    millis / 4
  }

  lemma QuarterFits(base: nat)
    requires base / MILLI < 0x1_0000_0000_0000_0000
    ensures JitterRange(base) == Quarter(base) && 4 * (Quarter(base) * MILLI) <= base
  {
    assert 4 * Quarter(base) <= base / MILLI;
    assert 4 * Quarter(base) * MILLI <= base;
  }

  /** The jitter is a whole number of milliseconds from minus a quarter of the base up to, but not including, plus a
      quarter, and every one of them occurs unless it overflows. */
  lemma EveryOffsetOccurs(base: nat, offset: int) returns (seed: u64)
    requires base / MILLI < 0x1_0000_0000_0000_0000 && 0 <= offset + Quarter(base) < 2 * Quarter(base)
    ensures base + offset * MILLI <= MAX_DURATION ==> Jittered(base, seed) == Some(base + offset * MILLI)
  {
    QuarterFits(base);
    seed := offset + Quarter(base);
    SmallRemainder(seed, Quarter(base) * 2);
  }

  lemma SmallRemainder(a: nat, b: nat)
    requires a < b
    ensures a % b == a
  {
  }

  /** No other jitter occurs. */
  lemma OnlyTheseOffsetsOccur(base: nat, seed: u64) returns (offset: int)
    requires base / MILLI < 0x1_0000_0000_0000_0000 && Jittered(base, seed).Some?
    ensures Jittered(base, seed) == Some(base + offset * MILLI)
    ensures 0 <= offset + Quarter(base) < 2 * Quarter(base) || offset == Quarter(base) == 0
  {
    QuarterFits(base);
    offset := if Quarter(base) == 0 then 0 else seed % (Quarter(base) * 2) - Quarter(base);
  }

  /** Attempt `k` sleeps within a quarter either side of `d * 2^(k-1)`, until the power saturates. */
  lemma DelayWithinAQuarter(d: nat, k: nat, seed: u64)
    requires 1 <= k <= 32
    ensures NoOverflow(d, k) ==> Delay(d, k, seed).Some?
    ensures
      var delay := Delay(d, k, seed);
      delay.Some? ==> 3 * (d * Pow2(k - 1)) <= 4 * delay.value <= 5 * (d * Pow2(k - 1))
  {
    JitterIsAQuarter(d * Pow2(k - 1), seed);
  }

  lemma Pow2Of31()
    ensures Pow2(31) == 0x8000_0000
  {
    assert Pow2(4) == 16;
    assert Pow2(8) == 256;
    assert Pow2(12) == 0x1000;
    assert Pow2(16) == 0x1_0000;
    assert Pow2(20) == 0x10_0000;
    assert Pow2(24) == 0x100_0000;
    assert Pow2(28) == 0x1000_0000;
  }

  /** The saturated step still multiplies by more than 5/3. */
  lemma BaseOutgrowsJitter(k: nat)
    requires 1 <= k <= 32
    ensures 3 * SaturatingPow2(k) > 5 * SaturatingPow2(k - 1)
  {
    Pow2Of31();
  }

  predicate LongerFor(d: nat, k: nat, s: u64, t: u64)
    requires k >= 1
  {
    Delay(d, k, s).Some? && Delay(d, k + 1, t).Some? ==> Delay(d, k, s).value < Delay(d, k + 1, t).value
  }

  ghost predicate StrictlyLonger(d: nat, k: nat)
    requires k >= 1
  {
    forall s: u64, t: u64 :: LongerFor(d, k, s, t)
  }

  lemma FarBasesFarDelays(a: nat, b: nat, s: u64, t: u64)
    requires 5 * a < 3 * b && 5 * a <= 4 * MAX_DURATION && 5 * b <= 4 * MAX_DURATION
    ensures Jittered(a, s).Some? && Jittered(b, t).Some? && Jittered(a, s).value < Jittered(b, t).value
  {
    JitterIsAQuarter(a, s);
    JitterIsAQuarter(b, t);
  }

  lemma UnsaturatedIsLonger(d: nat, k: nat, s: u64, t: u64)
    requires 1 <= k <= 32 && d > 0 && NoOverflow(d, k) && NoOverflow(d, k + 1)
    ensures LongerFor(d, k, s, t)
  {
    var p, q := SaturatingPow2(k - 1), SaturatingPow2(k);
    BaseOutgrowsJitter(k);
    ScaleBases(d, p, q);
    FarBasesFarDelays(d * p, d * q, s, t);
  }

  lemma SaturatedIsNotLonger(d: nat, k: nat)
    requires k >= 1 && NoOverflow(d, k) && (d == 0 || k > 32)
    ensures !LongerFor(d, k, 0, 0)
  {
    assert d * SaturatingPow2(k - 1) == d * SaturatingPow2(k);
    JitterIsAQuarter(d * SaturatingPow2(k), 0);
  }

  /** For all seeds the next delay is strictly longer, exactly when the configured delay is positive and
      the power has not saturated. */
  lemma DelaysIncreaseExactly(d: nat, k: nat)
    requires k >= 1 && NoOverflow(d, k) && NoOverflow(d, k + 1)
    ensures StrictlyLonger(d, k) <==> d > 0 && k <= 32
  {
    if d > 0 && k <= 32 {
      forall s: u64, t: u64
        ensures LongerFor(d, k, s, t)
      {
        UnsaturatedIsLonger(d, k, s, t);
      }
    } else {
      SaturatedIsNotLonger(d, k);
    }
  }

  lemma {:induction false} ScaleBases(d: nat, p: nat, q: nat)
    requires d > 0 && 5 * p < 3 * q
    ensures 5 * (d * p) < 3 * (d * q)
  {
    if d > 1 {
      ScaleBases(d - 1, p, q);
      var dp, dq := (d - 1) * p, (d - 1) * q;
      assert d * p == dp + p && d * q == dq + q;
    }
  }

  // ── A whole outage ───────────────────────────────────────────

  /** The time slept before the first `n` attempts. */
  function TotalDelay(d: nat, seeds: seq<u64>, n: nat): nat
    requires n <= |seeds|
  {
    if n == 0 then 0 else TotalDelay(d, seeds, n - 1) + OrElse(Delay(d, n, seeds[n - 1]), 0)
  }

  /** No delay of the first `n` attempts overflows. */
  predicate NoneOverflows(d: nat, seeds: seq<u64>, n: nat)
    requires n <= |seeds|
  {
    forall i :: 0 <= i < n ==> Delay(d, i + 1, seeds[i]).Some?
  }

  predicate WithinAQuarter(total: nat, base: nat) { 3 * base <= 4 * total <= 5 * base }

  /** `d * (2^n - 1)`. */
  function IdealTotal(d: nat, n: nat): nat { d * (Pow2(n) - 1) }

  /** The sleeps of `n` attempts add up to within a quarter of `d * (2^n - 1)`. */
  lemma {:induction false} TotalWithinAQuarter(d: nat, seeds: seq<u64>, n: nat)
    requires n <= |seeds| && n <= 32 && NoneOverflows(d, seeds, n)
    ensures WithinAQuarter(TotalDelay(d, seeds, n), IdealTotal(d, n))
  {
    if n > 0 {
      TotalWithinAQuarter(d, seeds, n - 1);
      DelayWithinAQuarter(d, n, seeds[n - 1]);
      Distribute(d, Pow2(n - 1) - 1, Pow2(n - 1));
    }
  }

  lemma Distribute(d: nat, x: int, y: int)
    ensures d * (x + y) == d * x + d * y
  {
  }

  lemma OneMoreDoesNotOverflow(d: nat, seeds: seq<u64>, n: nat)
    requires n < |seeds| && NoneOverflows(d, seeds, n) && Delay(d, n + 1, seeds[n]).Some?
    ensures NoneOverflows(d, seeds, n + 1)
    ensures TotalDelay(d, seeds, n + 1) == TotalDelay(d, seeds, n) + Delay(d, n + 1, seeds[n]).value
  {
  }

  /** How the handling of an outage ends; an overflowing delay panics before its attempt. */
  datatype Ending = Connected | Exhausted | Overflowed

  /** The attempts of one outage: sleep, try, stop at the first success.  `succeeds` says what each
      attempt would return. */
  method HandleOutage(d: nat, maxAttempts: nat, seeds: seq<u64>, succeeds: seq<bool>)
    returns (attempts: nat, slept: nat, ending: Ending)
    requires |seeds| == |succeeds| == maxAttempts
    ensures attempts <= maxAttempts && NoneOverflows(d, seeds, attempts) && slept == TotalDelay(d, seeds, attempts)
    ensures forall i :: 0 <= i < attempts - 1 ==> !succeeds[i]
    ensures ending.Connected? ==> attempts > 0 && succeeds[attempts - 1]
    ensures !ending.Connected? ==> forall i :: 0 <= i < attempts ==> !succeeds[i]
    ensures ending.Exhausted? ==> attempts == maxAttempts
    ensures ending.Overflowed? ==>
              attempts < maxAttempts && Delay(d, attempts + 1, seeds[attempts]).None? && !NoOverflow(d, attempts + 1)
    ensures attempts <= 32 ==> WithinAQuarter(slept, IdealTotal(d, attempts))
  {
    attempts, slept, ending := 0, 0, Exhausted;
    while attempts < maxAttempts && ending == Exhausted
      invariant attempts <= maxAttempts && NoneOverflows(d, seeds, attempts) && slept == TotalDelay(d, seeds, attempts)
      invariant forall i :: 0 <= i < attempts - 1 ==> !succeeds[i]
      invariant ending.Connected? ==> attempts > 0 && succeeds[attempts - 1]
      invariant !ending.Connected? ==> forall i :: 0 <= i < attempts ==> !succeeds[i]
      invariant ending.Overflowed? ==> attempts < maxAttempts && Delay(d, attempts + 1, seeds[attempts]).None?
      decreases maxAttempts - attempts, ending == Exhausted
    {
      var delay := Delay(d, attempts + 1, seeds[attempts]);
      if delay.None? {
        ending := Overflowed;
      } else {
        OneMoreDoesNotOverflow(d, seeds, attempts);
        attempts := attempts + 1;
        slept := slept + delay.value;
        ending := if succeeds[attempts - 1] then Connected else Exhausted;
      }
    }
    if ending == Overflowed {
      OverflowIsNone(d, attempts + 1, seeds[attempts]);
    }
    if attempts <= 32 {
      TotalWithinAQuarter(d, seeds, attempts);
    }
  }

  lemma OverflowIsNone(d: nat, k: nat, seed: u64)
    requires k >= 1 && Delay(d, k, seed).None?
    ensures !NoOverflow(d, k)
  {
    JitterIsAQuarter(d * SaturatingPow2(k - 1), seed);
  }
}
