# easy-pi-tuner: a verified model of the self-tuning PI controller

The model covers two pieces of easy-pi-tuner.

The first is the self-tuning proportional-integral controller in `index.js`. A controller instance holds six fields:

- gains `kp` and `ki`;
- the time step `dt`;
- the error accumulator `integral`;
- the error of the previous call, `previousError`;
- a fixed `tuningRate` of 0.01.

Each `update(setpoint, measuredValue)` call runs these steps in order:

1. It computes the error as setpoint minus measured value.
2. It adds error times `dt` to the accumulator.
3. It forms the output `kp * error + ki * integral`, using the gains from before the call.
4. It runs `adjustGains`, which moves each gain up or down by exactly the tuning rate:
   - `kp` falls when the error grew in magnitude, and rises otherwise;
   - `ki` falls when the accumulator exceeds the previous error times `dt` in magnitude, and rises otherwise.
5. It stores the error as the previous error.

The second is `convertToPWM` from `example.js`, which rounds a control output and clamps it to an 8-bit duty value in [0, 255].

Files:

- `controller.dfy`, module `PIController`:
  - `State` holds every field of a controller.
  - `Step` is one `update` call as a pure transition.
  - `AdjustedGains` is the gain heuristic.
  - `Run` is a sequence of calls, folded in order.
  - The class `SelfTuningPIController` holds the fields and updates them in place. Its methods are proved to produce exactly `Step` and `AdjustedGains` of the old state.
  - The multi-call properties are lemmas about `Run`.
- `pwm.dfy`, module `Pwm`: `ConvertToPWM` with its range, clamping, fixed-point, monotonicity and nearest-value properties.

All quantities are mathematical reals. `Math.round` is modelled as floor of x + 1/2, which rounds halves toward positive infinity as JavaScript does.

## Model

| member | source | states |
|---|---|---|
| PIController.Init | index.js:36-49 | a new controller has integral 0, previous error 0 and tuning rate 1/100, and takes kp, ki and dt from the arguments, which default to 1.0, 0.0 and 1.0 |
| PIController.SelfTuningPIController.constructor | index.js:36-49 | the constructed instance's fields are exactly `Init` of the arguments: copied gains and dt, integral 0, previous error 0, tuning rate 0.01 |
| PIController.AdjustedGains | index.js:80-99 | kp falls by the tuning rate iff the error is larger in magnitude than the previous error, and rises by it otherwise, ties included; ki falls iff the integral error is larger in magnitude than previous error times dt, and rises otherwise; the error becomes the previous error; integral, dt and tuning rate are untouched |
| PIController.SelfTuningPIController.AdjustGains | index.js:80-99 | updating the fields in place leaves the instance in exactly the `AdjustedGains` state of its old fields |
| PIController.Step | index.js:58-72 | one update adds error times dt to the integral; the output uses the gains from before the call and the already updated integral; the gains are then adapted against the updated integral; the error is stored as the previous error; dt and tuning rate are kept |
| PIController.SelfTuningPIController.Update | index.js:58-72 | the new fields and the returned output are those of `Step` on the old fields; the integral grew by error times dt; the output is old kp times the error plus old ki times the new integral; the previous error is this call's error |
| PIController.Fold | index.js:58-72 | folding a step over n readings yields exactly n outputs |
| PIController.Run | index.js:58-72 | a sequence of update calls on one controller yields one output per call |
| PIController.FoldAppend | index.js:58-72 | a fold over one more reading is the shorter fold followed by one more step, with that step's output appended |
| PIController.RunAppend | index.js:58-72 | a run of one more call is the shorter run followed by one more `Step`, with that output appended |
| PIController.RunPreviousError | index.js:98 | after a non-empty run the previous error is the error of the last reading, not the integral |
| PIController.StepAccumulates | index.js:65 | every update adds the error times dt to the integral and keeps dt and the tuning rate |
| PIController.FoldIntegral | index.js:65 | a fold of any step that accumulates ends with the accumulated sum of the increments, and keeps dt and the tuning rate |
| PIController.RunIntegral | index.js:58-72 | the integral after a run depends only on the errors and dt, never on the gains; dt and the tuning rate never change over a run |
| PIController.AccumulatedConstant | index.js:65 | accumulating a constant error e over n readings adds exactly n * e * dt |
| PIController.ConstantErrorIntegral | index.js:65 | n calls with constant error e raise the integral by exactly n * e * dt |
| PIController.FreshConstantErrorIntegral | index.js:42-65 | from a fresh controller, n calls with constant error e leave an integral of n * e * dt |
| PIController.ZeroErrorRun | index.js:65-95 | with zero error on every call and an empty accumulator, the integral and every output stay 0 and kp and ki each rise by the tuning rate per call |
| PIController.FiveZeroErrorCalls | index.js:36-99 | a default controller given five zero-error calls ends with kp = 1.05 and ki = 0.05 |
| PIController.GrowingErrorKp | index.js:83-85 | while the error strictly grows in magnitude, kp falls by the tuning rate on every call: kp0 - n * rate after n calls |
| PIController.KpBecomesNegative | index.js:83-85 | gains are not clamped: once n * rate exceeds kp0, n calls with growing error leave kp negative |
| PIController.Ramp | index.js:83 | the ramp of n readings has length n and strictly growing error magnitudes |
| PIController.DefaultKpCanGoNegative | index.js:36-85 | a default controller given 101 calls of growing error ends with a negative kp |
| PIController.SingleStepScenario | index.js:58-99 | a default controller given setpoint 100 and measurement 20 returns 80 and ends with kp 0.99, ki -0.01, integral 80 and previous error 80 |
| Pwm.Round | example.js:13 | the rounded value is the integer within one half of its argument, with halves rounded up |
| Pwm.ConvertToPWM | example.js:12-14 | the duty value lies in [0, 255]; it is 0 when the rounded output is at most 0, 255 when the rounded output is at least 255, and the rounded output otherwise |
| Pwm.DutyValuesAreFixed | example.js:13 | every integer duty value k in [0, 255] converts to itself |
| Pwm.ConvertToPWMMonotone | example.js:13 | a larger control output never gives a smaller duty value |
| Pwm.ConvertToPWMIsNearest | example.js:12-14 | the duty value is at least as close to the control output as any other duty value in [0, 255] |

## Left out

- Floating point: every quantity is a real. IEEE-754 rounding is not modelled, so `kp == 1.05` holds over reals but not bit for bit in doubles. NaN and Infinity propagation through `update` is not modelled either.
- `convertToPWM` returns an integer because its result type is `int`; JavaScript's number type is not modelled.
- The rest of `example.js` has no behaviour to verify: the random sensor reading, the console output of `controlHeater`, and the `setInterval` loop with its logging are I/O.
- `self-tuning-controller.js` is not part of this model. It is a demo driver that logs a loop against a made-up plant.
- The `module.exports` plumbing of `index.js` is not modelled.
- Concurrency is not modelled; the code is single-threaded.
- ZeroErrorRun, GrowingErrorKp and KpBecomesNegative are stated for states whose tuning rate is the fixed 0.01. Every constructed controller has that rate, and nothing else ever assigns it.
- PIController.SelfTuningPIController.Update states the gain changes through `Step` and `AdjustedGains`, not as separate clauses.
