/**
  Interval policy: how a target's rate (requests per second) becomes the period of
  its ticker. Rates are exact reals (Go's float64 rounding is not modelled) and
  periods are integer nanoseconds, Go's `time.Duration`. Converting a non-negative
  float to a `Duration` truncates, which for non-negative values is `Floor`.
*/
module Interval {

  const Millisecond: int := 1_000_000
  const Second: int := 1_000_000_000
  const MaxInt64: int := 0x7fff_ffff_ffff_ffff

  /** `float64(time.Second) / rps`, the period before it is converted to a Duration. */
  function RawPeriod(rps: real): real
    requires rps > 0.0
  {
    Second as real / rps
  }

  /** The period fits in a `time.Duration` (int64 nanoseconds). */
  predicate RateFits(rps: real)
  {
    rps <= 0.0 || rps * 9223372036854775808.0 > Second as real
  }

  /** `time.Duration(float64(time.Second) / rps)` for a positive rate. */
  function Ticks(rps: real): (d: int)
    requires rps > 0.0 && RateFits(rps)
    ensures 0 <= d <= MaxInt64
    ensures d as real <= RawPeriod(rps) < d as real + 1.0
  {
    var p := RawPeriod(rps);
    assert p < 9223372036854775808.0 by {
      assert p * rps == Second as real;
    }
    p.Floor
  }

  /**
    `probe.IntervalFromRPS`: a non-positive rate falls back to one second, and a
    period below one millisecond is raised to one millisecond.
  */
  function IntervalFromRPS(rps: real): (d: int)
    requires RateFits(rps)
    ensures Millisecond <= d <= MaxInt64
    ensures rps <= 0.0 ==> d == Second
    ensures rps > 0.0 && Ticks(rps) >= Millisecond ==> d == Ticks(rps)
  {
    if rps <= 0.0 then Second
    else
      var interval := Ticks(rps);
      if interval < Millisecond then Millisecond else interval
  }

  /** Above 1000 requests per second the period is exactly the one-millisecond floor. */
  lemma IntervalAboveThousand(rps: real)
    requires rps > 1000.0
    ensures RateFits(rps) && IntervalFromRPS(rps) == Millisecond
  {
    assert RawPeriod(rps) * rps == Second as real;
    assert RawPeriod(rps) < Millisecond as real;
  }

  /**
    Up to 1000 requests per second the period is 1/rps seconds rounded down to the
    nanosecond: `d` ns is at most the exact period, and `d + 1` ns exceeds it.
  */
  lemma IntervalIsReciprocal(rps: real)
    requires 0.0 < rps <= 1000.0 && RateFits(rps)
    ensures var d := IntervalFromRPS(rps);
            d as real * rps <= Second as real < (d + 1) as real * rps
  {
    var p := RawPeriod(rps);
    assert p * rps == Second as real;
    assert p >= Millisecond as real;
    var d := Ticks(rps);
    assert d >= Millisecond;
    MulMonotone(d as real, p, rps);
    MulStrict(p, (d + 1) as real, rps);
    assert IntervalFromRPS(rps) == d;
    assert Second as real < (d + 1) as real * rps;
  }

  /** A faster rate never gives a longer period. */
  lemma IntervalMonotonic(a: real, b: real)
    requires 0.0 < a <= b && RateFits(a) && RateFits(b)
    ensures IntervalFromRPS(b) <= IntervalFromRPS(a)
  {
    DivAntitone(Second as real, a, b);
    FloorMonotonic(RawPeriod(b), RawPeriod(a));
  }

  lemma MulMonotone(x: real, y: real, r: real)
    requires x <= y && r >= 0.0
    ensures x * r <= y * r
  {
  }

  lemma MulStrict(x: real, y: real, r: real)
    requires x < y && r > 0.0
    ensures x * r < y * r
  {
  }

  /** Dividing by a larger positive number gives a smaller quotient. */
  lemma DivAntitone(c: real, a: real, b: real)
    requires c >= 0.0 && 0.0 < a <= b
    ensures c / b <= c / a
  {
    var qa, qb := c / a, c / b;
    assert qa * a == c && qb * b == c;
    assert qb >= 0.0;
    MulMonotone(a, b, qb);
    if qb > qa {
      MulStrict(qa, qb, a);
      assert false;
    }
  }

  lemma FloorMonotonic(x: real, y: real)
    requires x <= y
    ensures x.Floor <= y.Floor
  {
  }

  /** The older package's period fits in a `time.Duration` after scaling to milliseconds. */
  predicate LegacyRateFits(rps: real)
  {
    rps > 0.0 && rps * 9223372036855.0 > 1000.0
  }

  /**
    `calculateInterval` of the older `prober` package: `1000/rps` truncated to a
    whole number of milliseconds, then scaled to a Duration. Nothing clamps it.
  */
  function CalculateInterval(rps: real): (d: int)
    requires LegacyRateFits(rps)
    ensures 0 <= d <= MaxInt64
    ensures d % Millisecond == 0
    ensures d == (1000.0 / rps).Floor * Millisecond
  {
    var q := 1000.0 / rps;
    assert q < 9223372036855.0 by {
      assert q * rps == 1000.0;
    }
    q.Floor * Millisecond
  }

  /** The older policy gives a zero period above 1000 requests per second. */
  lemma CalculateIntervalZeroAboveThousand(rps: real)
    requires rps > 1000.0
    ensures LegacyRateFits(rps) && CalculateInterval(rps) == 0
  {
    assert (1000.0 / rps) * rps == 1000.0;
  }

  lemma CalculateIntervalMonotonic(a: real, b: real)
    requires 0.0 < a <= b && LegacyRateFits(a) && LegacyRateFits(b)
    ensures CalculateInterval(b) <= CalculateInterval(a)
  {
    DivAntitone(1000.0, a, b);
    FloorMonotonic(1000.0 / b, 1000.0 / a);
  }

  /**
    Where both policies apply without clamping, the older one is the newer one
    rounded down to a whole millisecond: never longer, and less than 1 ms shorter.
  */
  lemma LegacyIntervalTruncatesToMillisecond(rps: real)
    requires 0.0 < rps <= 1000.0 && RateFits(rps) && LegacyRateFits(rps)
    ensures CalculateInterval(rps) <= IntervalFromRPS(rps) < CalculateInterval(rps) + Millisecond
  {
    var q := 1000.0 / rps;
    var p := RawPeriod(rps);
    assert q * rps == 1000.0 && p * rps == Second as real;
    assert p == q * Millisecond as real;
    var m := q.Floor;
    assert m as real * Millisecond as real <= p < (m + 1) as real * Millisecond as real;
    assert (m * Millisecond) as real <= p;
    assert p < (m * Millisecond + Millisecond) as real;
  }
}
