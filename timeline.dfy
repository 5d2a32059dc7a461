/**
 * Integer-millisecond time arithmetic behind the rotation of an aggregation
 * window: the top of the hour containing an instant, and the aligned start of
 * the window of a given length that contains it.
 */
module Timeline {

  /** Length of one hour, in milliseconds. */
  const HourMillis: int := 3600000

  /** The start of the (UTC) hour containing `t`. */
  function HourFloor(t: int): (h: int)
    ensures h <= t < h + HourMillis
    ensures h % HourMillis == 0
  {
    t - t % HourMillis
  }

  /**
   * `p` is a start of a window of length `period` that contains `t` and lies a
   * whole number of periods after the top of `t`'s hour.
   */
  ghost predicate IsAlignedStart(p: int, t: int, period: int)
    requires period > 0
  {
    HourFloor(t) <= p <= t < p + period && (p - HourFloor(t)) % period == 0
  }

  /** Reference definition of the new period start, in closed form. */
  function AlignedStart(t: int, period: int): (p: int)
    requires period > 0
    ensures IsAlignedStart(p, t, period)
  {
    var h := HourFloor(t);
    var k := (t - h) / period;
    DivModUnique(k * period, period, k, 0);
    h + k * period
  }

  /** A product of two positives is at least either factor. */
  lemma MulAtLeast(d: int, b: int)
    requires d >= 1 && b > 0
    ensures d * b >= b
  {
  }

  /** Euclidean division is determined by any decomposition `a == q * b + r` with `0 <= r < b`. */
  lemma DivModUnique(a: int, b: int, q: int, r: int)
    requires b > 0 && 0 <= r < b && a == q * b + r
    ensures a / b == q && a % b == r
  {
    var q', r' := a / b, a % b;
    assert a == q' * b + r';
    if q > q' {
      MulAtLeast(q - q', b);
    } else if q < q' {
      MulAtLeast(q' - q, b);
    }
  }

  /**
   * The aligned start is unique: any start that contains `t` and sits a whole
   * number of periods after the hour floor is the closed-form one.
   */
  lemma {:induction false} AlignedStartUnique(p: int, t: int, period: int)
    requires period > 0
    requires IsAlignedStart(p, t, period)
    ensures p == AlignedStart(t, period)
  {
    var h := HourFloor(t);
    var k := (p - h) / period;
    assert p - h == k * period + (p - h) % period;
    assert p - h == k * period;
    DivModUnique(t - h, period, k, t - p);
  }

  /**
   * The boundary loop of a rotation: start at the top of the hour of `time`
   * and step forward by `period` until the window contains `time` (or starts
   * exactly at it).
   */
  method PeriodStartFor(time: int, period: int) returns (startPeriod: int)
    requires period > 0
    ensures startPeriod == AlignedStart(time, period)
  {
    var hour := HourFloor(time);
    startPeriod := hour;
    ghost var steps: nat := 0;
    while !(startPeriod < time && time < startPeriod + period) && startPeriod != time
      invariant hour <= startPeriod <= time
      invariant startPeriod == hour + steps * period
      decreases time - startPeriod
    {
      startPeriod := startPeriod + period;
      steps := steps + 1;
    }
    DivModUnique(steps * period, period, steps, 0);
    AlignedStartUnique(startPeriod, time, period);
  }
}
