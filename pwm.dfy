/**
 * Conversion of a controller output to an 8-bit PWM duty value: the output is
 * rounded to the nearest integer and clamped to [0, 255].
 */
module Pwm {

  /** The largest duty value. */
  const MaxDuty: int := 255

  /** `Math.round`: the nearest integer, with halves rounded toward positive infinity. */
  function Round(x: real): (n: int)
    ensures n as real - 0.5 <= x < n as real + 0.5
  {
    (x + 0.5).Floor
  }

  /** `Math.max` on integers. */
  function Max(a: int, b: int): (m: int)
    ensures m >= a && m >= b && (m == a || m == b)
  {
    if a >= b then a else b
  }

  /** `Math.min` on integers. */
  function Min(a: int, b: int): (m: int)
    ensures m <= a && m <= b && (m == a || m == b)
  {
    if a <= b then a else b
  }

  /** The rounded control output, clamped to the duty range. */
  function ConvertToPWM(controlOutput: real): (duty: int)
    ensures 0 <= duty <= MaxDuty
    ensures Round(controlOutput) <= 0 ==> duty == 0
    ensures Round(controlOutput) >= MaxDuty ==> duty == MaxDuty
    ensures 0 < Round(controlOutput) < MaxDuty ==> duty == Round(controlOutput)
  {
    Min(Max(Round(controlOutput), 0), MaxDuty)
  }

  /** Distance between two reals. */
  function Distance(a: real, b: real): (d: real)
    ensures d >= 0.0 && (d == a - b || d == b - a)
  {
    if a >= b then a - b else b - a
  }

  /** Rounding leaves an integer unchanged. */
  lemma RoundOfInteger(k: int)
    ensures Round(k as real) == k
  {
  }

  /** Rounding never reverses the order of two values. */
  lemma RoundMonotone(x: real, y: real)
    requires x <= y
    ensures Round(x) <= Round(y)
  {
  }

  /** Every duty value is converted to itself. */
  lemma DutyValuesAreFixed(k: int)
    requires 0 <= k <= MaxDuty
    ensures ConvertToPWM(k as real) == k
  {
    RoundOfInteger(k);
  }

  /** A larger control output never yields a smaller duty value. */
  lemma ConvertToPWMMonotone(x: real, y: real)
    requires x <= y
    ensures ConvertToPWM(x) <= ConvertToPWM(y)
  {
    RoundMonotone(x, y);
  }

  /** The duty value is a duty value nearest to the control output. */
  lemma ConvertToPWMIsNearest(x: real, k: int)
    requires 0 <= k <= MaxDuty
    ensures Distance(ConvertToPWM(x) as real, x) <= Distance(k as real, x)
  {
    var d := ConvertToPWM(x);
    if k < d {
      // The duty value is above zero, so the output was rounded up to at least `d`.
      assert x >= d as real - 0.5;
      assert k as real <= d as real - 1.0;
    } else if k > d {
      // The duty value is below the maximum, so the output was rounded down to at most `d`.
      assert x < d as real + 0.5;
      assert k as real >= d as real + 1.0;
    }
  }
}
