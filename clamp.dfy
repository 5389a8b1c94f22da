/**
 * The clamp and display rule of `update_position`: the follower may travel
 * along the path only up to `clamped_percentage` per cent of its length, and
 * the label shows the reached position as a whole percentage of the length.
 * Numbers are exact reals.
 */
module Clamp {

  /**
   * The largest arc length the follower may reach: `clamped_percentage / 100 * Length`.
   * A percentage in the spin box's range gives a point on the path; 0 % is its
   * start and 100 % its end.
   */
  function ClampBoundary(percentage: real, length: real): (r: real)
    ensures 0.0 <= percentage <= 100.0 && 0.0 <= length ==> 0.0 <= r <= length
    ensures percentage == 0.0 ==> r == 0.0
    ensures percentage == 100.0 ==> r == length
  {
    var fraction := percentage / 100.0;
    assert 0.0 <= fraction <= 1.0 && 0.0 <= length ==> 0.0 <= (1.0 - fraction) * length;
    fraction * length
  }

  /** `min(value, boundary)`: the arc length at which the follower is placed. */
  function EffectiveLength(value: real, percentage: real, length: real): (r: real)
    ensures r <= value && r <= ClampBoundary(percentage, length)
    ensures r == value || r == ClampBoundary(percentage, length)
  {
    var boundary := ClampBoundary(percentage, length);
    if boundary < value then boundary else value
  }

  predicate IsEven(n: int)
  {
    n % 2 == 0
  }

  /**
   * Python 3's `round` of one argument: the nearest integer, and of two
   * equally near integers the even one.
   */
  function RoundHalfEven(x: real): (n: int)
    ensures -0.5 <= n as real - x <= 0.5
    ensures (n as real - x == 0.5 || x - n as real == 0.5) ==> IsEven(n)
  {
    var f := x.Floor;
    var d := x - f as real;
    if d < 0.5 then f
    else if d > 0.5 then f + 1
    else if IsEven(f) then f
    else f + 1
  }

  /** The label's value: `round(effective / Length * 100)`, the nearest whole percentage of the path. */
  function DisplayPercent(effective: real, length: real): (r: int)
    requires length != 0.0
    ensures -0.5 <= r as real - effective / length * 100.0 <= 0.5
  {
    RoundHalfEven(effective / length * 100.0)
  }

  // ---------------------------------------------------------------------------
  // Rounding

  /** The two contract clauses of `RoundHalfEven` pin its result down: no other integer meets them. */
  lemma RoundHalfEvenUnique(x: real, n: int)
    requires -0.5 <= n as real - x <= 0.5
    requires (n as real - x == 0.5 || x - n as real == 0.5) ==> IsEven(n)
    ensures n == RoundHalfEven(x)
  {
  }

  lemma RoundHalfEvenOfInteger(n: int)
    ensures RoundHalfEven(n as real) == n
  {
    RoundHalfEvenUnique(n as real, n);
  }

  /** Rounding never reverses the order of two numbers. */
  lemma RoundHalfEvenMonotone(x: real, y: real)
    requires x <= y
    ensures RoundHalfEven(x) <= RoundHalfEven(y)
  {
  }

  // ---------------------------------------------------------------------------
  // The clamp rule

  /**
   * For a slider value in the slider's range and a percentage in the
   * spin box's range, the follower stays on the path and never passes the
   * clamp boundary.
   */
  lemma EffectiveLengthWithinPath(value: real, percentage: real, length: real)
    requires 0.0 <= value && 0.0 <= percentage <= 100.0 && 0.0 < length
    ensures 0.0 <= EffectiveLength(value, percentage, length) <= ClampBoundary(percentage, length) <= length
  {
  }

  /** At or beyond the boundary the follower stays exactly on the boundary. */
  lemma EffectiveLengthSaturates(value: real, percentage: real, length: real)
    requires value >= ClampBoundary(percentage, length)
    ensures EffectiveLength(value, percentage, length) == ClampBoundary(percentage, length)
  {
  }

  /** Below the boundary the follower tracks the slider one to one. */
  lemma EffectiveLengthTracksSlider(value: real, percentage: real, length: real)
    requires value <= ClampBoundary(percentage, length)
    ensures EffectiveLength(value, percentage, length) == value
  {
  }

  /** Moving the slider forward never moves the follower back. */
  lemma EffectiveLengthMonotone(value: real, value': real, percentage: real, length: real)
    requires value <= value'
    ensures EffectiveLength(value, percentage, length) <= EffectiveLength(value', percentage, length)
  {
  }

  /** A clamp of 0 % pins the follower to the start of the path. */
  lemma ZeroPercentPinsStart(value: real, length: real)
    requires 0.0 <= value
    ensures EffectiveLength(value, 0.0, length) == 0.0
  {
  }

  /** A clamp of 100 % lets the follower follow the slider over the whole path. */
  lemma FullPercentIsNoClamp(value: real, length: real)
    requires value <= length
    ensures EffectiveLength(value, 100.0, length) == value
  {
  }

  // ---------------------------------------------------------------------------
  // The display rule

  /** A position on the path is shown as a whole percentage between 0 and 100. */
  lemma DisplayPercentInRange(effective: real, length: real)
    requires 0.0 <= effective <= length && 0.0 < length
    ensures 0 <= DisplayPercent(effective, length) <= 100
  {
    var x := effective / length * 100.0;
    assert 0.0 <= x;
    assert effective / length <= 1.0;
    assert x <= 100.0;
    RoundHalfEvenMonotone(0.0, x);
    RoundHalfEvenMonotone(x, 100.0);
    RoundHalfEvenOfInteger(0);
    RoundHalfEvenOfInteger(100);
  }

  /** The shown percentage never decreases as the follower moves forward. */
  lemma DisplayPercentMonotone(effective: real, effective': real, length: real)
    requires effective <= effective' && 0.0 < length
    ensures DisplayPercent(effective, length) <= DisplayPercent(effective', length)
  {
    assert effective / length <= effective' / length;
    RoundHalfEvenMonotone(effective / length * 100.0, effective' / length * 100.0);
  }

  /**
   * A path of length 200 clamped at 50 %: the slider at 150 leaves the
   * follower on the boundary 100 and shows 50; the slider at 80 shows 40.
   */
  lemma HalfClampExamples()
    ensures EffectiveLength(150.0, 50.0, 200.0) == 100.0
    ensures DisplayPercent(EffectiveLength(150.0, 50.0, 200.0), 200.0) == 50
    ensures EffectiveLength(80.0, 50.0, 200.0) == 80.0
    ensures DisplayPercent(EffectiveLength(80.0, 50.0, 200.0), 200.0) == 40
  {
  }

  /**
   * The start-up label is computed from the raw restored value, not the
   * clamped one: it agrees with what the first slider event shows only while
   * the raw value is within the boundary. With length 200, a 50 % clamp and
   * a restored value of 150 it shows 75 where the follower can reach only 50.
   */
  lemma StartupDisplayIgnoresClamp(value: real, percentage: real, length: real)
    requires 0.0 < length
    ensures value <= ClampBoundary(percentage, length) ==>
      DisplayPercent(value, length) == DisplayPercent(EffectiveLength(value, percentage, length), length)
    ensures DisplayPercent(150.0, 200.0) == 75
    ensures DisplayPercent(EffectiveLength(150.0, 50.0, 200.0), 200.0) == 50
  {
  }
}
