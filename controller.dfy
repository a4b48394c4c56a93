/**
 * The self-tuning PI controller: a proportional-integral controller that
 * nudges its own gains after every update according to how the error evolves.
 *
 * The controller's state is one value of `State`; `Step` is one call of
 * `update` as a pure transition, and `Run` is a sequence of calls.
 * `SelfTuningPIController` is the object itself, whose methods change its
 * fields in place and are proved to agree with `Step` and `AdjustedGains`.
 * All quantities are reals (no floating-point rounding).
 */
module PIController {

  /** The step by which every update moves each gain. */
  const TuningRate: real := 1.0 / 100.0

  /** Absolute value of a real, as `Math.abs`. */
  function Abs(x: real): (r: real)
    ensures r >= 0.0
    ensures r == x || r == -x
  {
    if x < 0.0 then -x else x
  }

  /** The two arguments of one `update` call. */
  datatype Reading = Reading(setpoint: real, measuredValue: real)
  {
    /** The error the controller steers by: setpoint minus measured value. */
    function Error(): real
    {
      setpoint - measuredValue
    }
  }

  /** Every field of a controller instance. */
  datatype State = State(
    kp: real,
    ki: real,
    dt: real,
    integral: real,
    previousError: real,
    tuningRate: real)

  /** What one `update` call yields: the controller's next state and the control output. */
  datatype StepResult = StepResult(state: State, output: real)

  /** The states and outputs of a sequence of `update` calls. */
  datatype Trace = Trace(final: State, outputs: seq<real>)

  /** A state as construction leaves it: nothing accumulated, no previous error, the fixed tuning rate. */
  predicate Fresh(s: State)
  {
    s.integral == 0.0 && s.previousError == 0.0 && s.tuningRate == TuningRate
  }

  /** The state a new controller starts in; each argument may be omitted. */
  function Init(initialKp: real := 1.0, initialKi: real := 0.0, dt: real := 1.0): (s: State)
    ensures Fresh(s)
    ensures s.kp == initialKp && s.ki == initialKi && s.dt == dt
  {
    State(initialKp, initialKi, dt, 0.0, 0.0, TuningRate)
  }

  /**
   * The gain-adaptation heuristic. The proportional gain falls by the tuning
   * rate when the error grew in magnitude and rises otherwise; the integral
   * gain falls when the accumulated error exceeds one scaled previous error
   * in magnitude and rises otherwise. The error becomes the previous error.
   */
  function AdjustedGains(s: State, error: real, integralError: real): (r: State)
    ensures Abs(error) > Abs(s.previousError) ==> r.kp == s.kp - s.tuningRate
    ensures Abs(error) <= Abs(s.previousError) ==> r.kp == s.kp + s.tuningRate
    ensures Abs(integralError) > Abs(s.previousError * s.dt) ==> r.ki == s.ki - s.tuningRate
    ensures Abs(integralError) <= Abs(s.previousError * s.dt) ==> r.ki == s.ki + s.tuningRate
    ensures r.previousError == error
    ensures r.integral == s.integral && r.dt == s.dt && r.tuningRate == s.tuningRate
  {
    s.(kp := if Abs(error) > Abs(s.previousError) then s.kp - s.tuningRate else s.kp + s.tuningRate,
       ki := if Abs(integralError) > Abs(s.previousError * s.dt) then s.ki - s.tuningRate else s.ki + s.tuningRate,
       previousError := error)
  }

  /** The control law: the proportional term plus the integral term. */
  function ControlOutput(kp: real, ki: real, error: real, accumulated: real): real
  {
    kp * error + ki * accumulated
  }

  /**
   * One `update` call: accumulate the error, form the output from the gains
   * as they were before the call, then adapt the gains against the updated
   * accumulator.
   */
  function Step(s: State, x: Reading): (r: StepResult)
    ensures r.state.integral == s.integral + x.Error() * s.dt
    ensures r.output == ControlOutput(s.kp, s.ki, x.Error(), r.state.integral)
    ensures r.state == AdjustedGains(s.(integral := r.state.integral), x.Error(), r.state.integral)
    ensures r.state.previousError == x.Error()
    ensures r.state.dt == s.dt && r.state.tuningRate == s.tuningRate
  {
    var error := x.Error();
    var accumulated := s.integral + error * s.dt;
    var output := ControlOutput(s.kp, s.ki, error, accumulated);
    StepResult(AdjustedGains(s.(integral := accumulated), error, accumulated), output)
  }

  /** Feeding the readings to `step` one after the other, in order, collecting the outputs. */
  function Fold(step: (State, Reading) -> StepResult, s: State, xs: seq<Reading>): (r: Trace)
    ensures |r.outputs| == |xs|
    decreases |xs|
  {
    if xs == [] then
      Trace(s, [])
    else
      var first := step(s, xs[0]);
      var rest := Fold(step, first.state, xs[1..]);
      Trace(rest.final, [first.output] + rest.outputs)
  }

  /** A sequence of `update` calls on one controller, starting in state `s`. */
  function Run(s: State, xs: seq<Reading>): (r: Trace)
    ensures |r.outputs| == |xs|
  {
    Fold(Step, s, xs)
  }

  /** Every reading has the same error `e`. */
  predicate ConstantError(xs: seq<Reading>, e: real)
  {
    forall i :: 0 <= i < |xs| ==> xs[i].Error() == e
  }

  /** Each reading's error is strictly larger in magnitude than the one before it, starting from `previous`. */
  predicate Growing(previous: real, xs: seq<Reading>)
    decreases |xs|
  {
    xs == [] || (Abs(xs[0].Error()) > Abs(previous) && Growing(xs[0].Error(), xs[1..]))
  }

  /** A fold one reading longer is one more step after the shorter fold. */
  lemma {:induction false} FoldAppend(step: (State, Reading) -> StepResult, s: State, xs: seq<Reading>, x: Reading)
    ensures Fold(step, s, xs + [x]).final == step(Fold(step, s, xs).final, x).state
    ensures Fold(step, s, xs + [x]).outputs == Fold(step, s, xs).outputs + [step(Fold(step, s, xs).final, x).output]
    decreases |xs|
  {
    if xs != [] {
      assert (xs + [x])[1..] == xs[1..] + [x];
      FoldAppend(step, step(s, xs[0]).state, xs[1..], x);
    }
  }

  /** A run one reading longer is one more `update` after the shorter run. */
  lemma RunAppend(s: State, xs: seq<Reading>, x: Reading)
    ensures Run(s, xs + [x]).final == Step(Run(s, xs).final, x).state
    ensures Run(s, xs + [x]).outputs == Run(s, xs).outputs + [Step(Run(s, xs).final, x).output]
  {
    FoldAppend(Step, s, xs, x);
  }

  /** After a non-empty run the previous error is the error of the last reading. */
  lemma RunPreviousError(s: State, xs: seq<Reading>)
    requires xs != []
    ensures Run(s, xs).final.previousError == xs[|xs| - 1].Error()
  {
    var init, last := xs[..|xs| - 1], xs[|xs| - 1];
    assert xs == init + [last];
    RunAppend(s, init, last);
  }

  /** What one `update` adds to the integral: the error times the time step. */
  function ErrorTimesDt(dt: real, x: Reading): real
  {
    x.Error() * dt
  }

  /** `step` adds `increment(dt, x)` to the integral and keeps `dt` and the tuning rate. */
  ghost predicate Accumulates(step: (State, Reading) -> StepResult, increment: (real, Reading) -> real)
  {
    forall s: State, x: Reading {:trigger step(s, x)} ::
      && step(s, x).state.integral == s.integral + increment(s.dt, x)
      && step(s, x).state.dt == s.dt
      && step(s, x).state.tuningRate == s.tuningRate
  }

  /** Every `update` adds the error times `dt` to the integral and keeps `dt` and the tuning rate. */
  lemma StepAccumulates()
    ensures Accumulates(Step, ErrorTimesDt)
  {
  }

  /** The integral after the readings when each adds `increment(dt, x)`. */
  function Accumulated(integral: real, dt: real, increment: (real, Reading) -> real, xs: seq<Reading>): real
    decreases |xs|
  {
    if xs == [] then integral else Accumulated(integral + increment(dt, xs[0]), dt, increment, xs[1..])
  }

  /** Folding a step that accumulates ends with the accumulated integral and the same `dt` and tuning rate. */
  lemma {:induction false} FoldIntegral(
    step: (State, Reading) -> StepResult, increment: (real, Reading) -> real, s: State, xs: seq<Reading>)
    requires Accumulates(step, increment)
    ensures Fold(step, s, xs).final.integral == Accumulated(s.integral, s.dt, increment, xs)
    ensures Fold(step, s, xs).final.dt == s.dt
    ensures Fold(step, s, xs).final.tuningRate == s.tuningRate
    decreases |xs|
  {
    if xs != [] {
      var next := step(s, xs[0]).state;
      assert next.integral == s.integral + increment(s.dt, xs[0]);
      assert next.dt == s.dt && next.tuningRate == s.tuningRate;
      FoldIntegral(step, increment, next, xs[1..]);
      assert Fold(step, s, xs).final == Fold(step, next, xs[1..]).final;
      assert Accumulated(s.integral, s.dt, increment, xs) == Accumulated(next.integral, next.dt, increment, xs[1..]);
    }
  }

  /**
   * The integral a run ends with depends only on the errors and the time
   * step, not on the gains; `dt` and the tuning rate never change.
   */
  lemma RunIntegral(s: State, xs: seq<Reading>)
    ensures Run(s, xs).final.integral == Accumulated(s.integral, s.dt, ErrorTimesDt, xs)
    ensures Run(s, xs).final.dt == s.dt
    ensures Run(s, xs).final.tuningRate == s.tuningRate
  {
    StepAccumulates();
    FoldIntegral(Step, ErrorTimesDt, s, xs);
  }

  /** Accumulating a constant error `e` n times adds `n * e * dt`. */
  lemma {:induction false} AccumulatedConstant(integral: real, dt: real, xs: seq<Reading>, e: real)
    requires ConstantError(xs, e)
    ensures Accumulated(integral, dt, ErrorTimesDt, xs) == integral + |xs| as real * e * dt
    decreases |xs|
  {
    if xs != [] {
      assert xs[0].Error() == e;
      assert ErrorTimesDt(dt, xs[0]) == e * dt;
      assert Accumulated(integral, dt, ErrorTimesDt, xs) == Accumulated(integral + e * dt, dt, ErrorTimesDt, xs[1..]);
      AccumulatedConstant(integral + e * dt, dt, xs[1..], e);
      assert (|xs| - 1) as real * e * dt + e * dt == |xs| as real * e * dt;
    }
  }

  /** With a constant error `e`, each call adds `e * dt`: after n calls the integral has grown by `n * e * dt`. */
  lemma ConstantErrorIntegral(s: State, xs: seq<Reading>, e: real)
    requires ConstantError(xs, e)
    ensures Run(s, xs).final.integral == s.integral + |xs| as real * e * s.dt
  {
    RunIntegral(s, xs);
    AccumulatedConstant(s.integral, s.dt, xs, e);
  }

  /** From a fresh controller, n calls with constant error `e` leave exactly `n * e * dt` in the integral. */
  lemma FreshConstantErrorIntegral(s: State, xs: seq<Reading>, e: real)
    requires Fresh(s)
    requires ConstantError(xs, e)
    ensures Run(s, xs).final.integral == |xs| as real * e * s.dt
  {
    ConstantErrorIntegral(s, xs, e);
  }

  /**
   * With zero error on every call and nothing accumulated, the integral and
   * every output stay 0 and both gains rise by the tuning rate per call.
   */
  lemma {:induction false} ZeroErrorRun(s: State, xs: seq<Reading>)
    requires s.integral == 0.0 && s.tuningRate == TuningRate
    requires ConstantError(xs, 0.0)
    ensures Run(s, xs).final.integral == 0.0
    ensures Run(s, xs).final.kp == s.kp + |xs| as real * TuningRate
    ensures Run(s, xs).final.ki == s.ki + |xs| as real * TuningRate
    ensures forall i :: 0 <= i < |xs| ==> Run(s, xs).outputs[i] == 0.0
    decreases |xs|
  {
    if xs != [] {
      var first := Step(s, xs[0]);
      assert xs[0].Error() == 0.0;
      assert first.output == 0.0;
      assert first.state.integral == 0.0 && first.state.tuningRate == TuningRate;
      assert first.state.kp == s.kp + TuningRate && first.state.ki == s.ki + TuningRate;
      ZeroErrorRun(first.state, xs[1..]);
      assert Run(s, xs) == Trace(Run(first.state, xs[1..]).final, [first.output] + Run(first.state, xs[1..]).outputs);
    }
  }

  /** While the error keeps growing in magnitude, the proportional gain falls by the tuning rate on every call. */
  lemma {:induction false} GrowingErrorKp(s: State, xs: seq<Reading>)
    requires s.tuningRate == TuningRate
    requires Growing(s.previousError, xs)
    ensures Run(s, xs).final.kp == s.kp - |xs| as real * TuningRate
    decreases |xs|
  {
    if xs != [] {
      var next := Step(s, xs[0]).state;
      assert next.kp == s.kp - TuningRate && next.tuningRate == TuningRate;
      assert next.previousError == xs[0].Error();
      GrowingErrorKp(next, xs[1..]);
      assert Run(s, xs).final == Run(next, xs[1..]).final;
    }
  }

  /** Gains are never clamped: enough calls with a growing error drive the proportional gain below zero. */
  lemma KpBecomesNegative(s: State, xs: seq<Reading>)
    requires s.tuningRate == TuningRate
    requires Growing(s.previousError, xs)
    requires |xs| as real * TuningRate > s.kp
    ensures Run(s, xs).final.kp < 0.0
  {
    GrowingErrorKp(s, xs);
  }

  /** Readings whose errors are `from + 1`, `from + 2`, ..., `from + n`. */
  function Ramp(from: nat, n: nat): (xs: seq<Reading>)
    ensures |xs| == n
    ensures Growing(from as real, xs)
    decreases n
  {
    if n == 0 then [] else [Reading((from + 1) as real, 0.0)] + Ramp(from + 1, n - 1)
  }

  /** A default controller fed 101 readings of growing error ends with a negative proportional gain. */
  lemma DefaultKpCanGoNegative()
    ensures Run(Init(), Ramp(0, 101)).final.kp < 0.0
  {
    KpBecomesNegative(Init(), Ramp(0, 101));
  }

  /** A default controller fed five zero-error readings has kp = 1.05 and ki = 0.05. */
  lemma FiveZeroErrorCalls(target: real)
    ensures Run(Init(), seq(5, _ => Reading(target, target))).final.kp == 1.05
    ensures Run(Init(), seq(5, _ => Reading(target, target))).final.ki == 0.05
  {
    ZeroErrorRun(Init(), seq(5, _ => Reading(target, target)));
  }

  /** A default controller given setpoint 100 and measurement 20 outputs 80 and moves both gains down. */
  lemma SingleStepScenario()
    ensures Step(Init(), Reading(100.0, 20.0)).output == 80.0
    ensures Step(Init(), Reading(100.0, 20.0)).state
         == State(0.99, -0.01, 1.0, 80.0, 80.0, TuningRate)
  {
  }

  /** A controller instance. `dt` and `tuningRate` are set by the constructor and never change. */
  class SelfTuningPIController {
    var kp: real
    var ki: real
    const dt: real
    var integral: real
    var previousError: real
    const tuningRate: real

    /** The instance's fields as a `State`. */
    function Snapshot(): (s: State)
      reads this
      ensures s.kp == kp && s.ki == ki && s.dt == dt
      ensures s.integral == integral && s.previousError == previousError && s.tuningRate == tuningRate
    {
      State(kp, ki, dt, integral, previousError, tuningRate)
    }

    /** Copies the gains and time step (defaults 1.0, 0.0, 1.0) and starts with nothing accumulated. */
    constructor(initialKp: real := 1.0, initialKi: real := 0.0, dt: real := 1.0)
      ensures Snapshot() == Init(initialKp, initialKi, dt)
      ensures kp == initialKp && ki == initialKi && this.dt == dt
      ensures integral == 0.0 && previousError == 0.0 && tuningRate == 0.01
    {
      kp := initialKp;
      ki := initialKi;
      this.dt := dt;
      integral := 0.0;
      previousError := 0.0;
      tuningRate := TuningRate;
    }

    /**
     * Computes the control output for one cycle, accumulating the error and
     * adapting the gains; the output uses the gains from before the call.
     */
    method Update(setpoint: real, measuredValue: real) returns (output: real)
      modifies this
      ensures Snapshot() == Step(old(Snapshot()), Reading(setpoint, measuredValue)).state
      ensures output == Step(old(Snapshot()), Reading(setpoint, measuredValue)).output
      ensures integral == old(integral) + (setpoint - measuredValue) * dt
      ensures output == ControlOutput(old(kp), old(ki), setpoint - measuredValue, integral)
      ensures previousError == setpoint - measuredValue
    {
      ghost var before := Snapshot();
      ghost var reading := Reading(setpoint, measuredValue);
      var error := setpoint - measuredValue;
      var proportional := kp * error;
      integral := integral + error * dt;
      var integralTerm := ki * integral;
      assert proportional + integralTerm == ControlOutput(before.kp, before.ki, error, integral);
      assert reading.Error() == error;
      assert before.integral + reading.Error() * before.dt == integral;
      ghost var accumulated := Snapshot();
      assert accumulated == before.(integral := Step(before, reading).state.integral);
      AdjustGains(error, integral);
      assert Snapshot() == AdjustedGains(accumulated, reading.Error(), accumulated.integral);
      output := proportional + integralTerm;
    }

    /** The gain-adaptation heuristic applied to the instance's own fields. */
    method AdjustGains(error: real, integralError: real)
      modifies this
      ensures Snapshot() == AdjustedGains(old(Snapshot()), error, integralError)
    {
      if Abs(error) > Abs(previousError) {
        kp := kp - tuningRate;
      } else {
        kp := kp + tuningRate;
      }
      if Abs(integralError) > Abs(previousError * dt) {
        ki := ki - tuningRate;
      } else {
        ki := ki + tuningRate;
      }
      previousError := error;
    }
  }
}
