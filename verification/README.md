# FastAnalogRead adaptive smoothing filter, in Dafny

This project models the filter at the heart of the FastAnalogRead Arduino
library. The library turns a noisy stream of analog samples into a stable integer
output. It uses an exponential moving average whose gain comes from a
hyperbola-shaped "snap curve". A second average tracks the recent error and
drives a sleep mode that freezes the output once the signal settles. An
edge-snap correction near both rails makes the extremes reachable.

One channel is an immutable record (`FastAnalogRead.Channel`) that holds the
configuration and the filter state: raw value, smoothed value, error estimate,
sleep flag, current and previous output, and the change flag. The fixed-point
type `FastAnalogFixed` is modelled as Dafny's exact `real`. Its `getInteger`
is modelled as floor, and is only ever applied to values that are not negative.

Files:
- `fixed_arith.dfy` (module `FixedArith`): absolute value, truncation, clamp.
- `fast_analog_read.dfy` (module `FastAnalogRead`): the data model and the
  operations `snapCurve`, `setSnapMultiplier`, the configuration part of
  `begin`, `getResponsiveValue` split into its stages, and `update(uint16_t)`.
- `snap_curve_props.dfy` (module `SnapCurveProps`): snap curve and setter properties.
- `edge_snap_props.dfy` (module `EdgeSnapProps`): edge-snap properties.
- `filter_props.dfy` (module `FilterProps`): one-step properties, the clamp
  invariant, and a polling loop over a sequence of samples.
- `scenarios.dfy` (module `Scenarios`): concrete runs from the library's default
  settings.

A filter step needs `Ready(c)`, which has three parts:
- a resolution of at least 1, which the library leaves to its caller;
- a multiplier that is not negative, which the setter guarantees;
- a smoothed value that is not negative, which every step preserves.

The clamp invariant `Valid` adds two bounds: the multiplier is at most 1, and
the smoothed value is at most `resolution - 1`.

Two consequences of the code are worth stating, because a reader of the
formula alone might expect otherwise:
- A multiplier of 0.01 does not make the first sample crawl. One sample of 512
  from rest, with sleep disabled, gives the scaled deviation 5.12. That is at
  least 1, so the cap at `src/FastAnalogRead.cpp:140` saturates the snap curve
  and the output lands on 512 exactly (`Scenarios.FirstSampleSnapsFully`).
- The snap curve is non-decreasing, not strictly increasing: it rises strictly
  on `[0, 1]` and is flat at 1 from `x = 1` on.

## Model

| member | source | states |
|---|---|---|
| FixedArith.GetInteger | src/FastAnalogRead.cpp:132-133 | the truncation of a non-negative value is the integer n with n <= x < n + 1 |
| FixedArith.GetIntegerUnique | src/FastAnalogRead.cpp:132-133 | that integer is unique |
| FixedArith.Clamp | src/FastAnalogRead.cpp:126-130 | with hi >= 0 the result lies in [0, hi]; values already inside are kept; negatives become 0 |
| FixedArith.ClampNearest | src/FastAnalogRead.cpp:126-130 | the clamped value is the point of [0, hi] nearest the input |
| FixedArith.ClampMonotone | src/FastAnalogRead.cpp:126-130 | clamping preserves order |
| FixedArith.ClampIdempotent | src/FastAnalogRead.cpp:126-130 | clamping twice equals clamping once |
| FastAnalogRead.SnapCurve | src/FastAnalogRead.cpp:136-141 | snapCurve(0) = 0; for x >= 0 the weight is in [0, 1]; for x >= 1 it is exactly 1; undefined only at the pole x = -1 |
| SnapCurveProps.SnapCurveClosedForm | src/FastAnalogRead.cpp:136-141 | for x >= 0 the curve equals the independent closed form min(2x/(x+1), 1) |
| SnapCurveProps.SnapCurveMonotone | src/FastAnalogRead.cpp:136-141 | the curve is non-decreasing on x >= 0 |
| SnapCurveProps.SnapCurveStrictBelowOne | src/FastAnalogRead.cpp:138-140 | on [0, 1] the curve is strictly increasing |
| SnapCurveProps.SnapCurveBelowOne | src/FastAnalogRead.cpp:138-140 | below x = 1 the weight is strictly less than 1 |
| SnapCurveProps.SnapCurveSaturation | src/FastAnalogRead.cpp:138-140 | for x >= 0 the weight is exactly 1 if and only if x >= 1 |
| FastAnalogRead.SetSnapMultiplier | src/FastAnalogRead.cpp:143-158 | the stored multiplier is in [0, 1]: m itself when 0 <= m <= 1, else 1 above and 0 below; no other field changes |
| SnapCurveProps.SetSnapMultiplierNearest | src/FastAnalogRead.cpp:143-158 | the stored multiplier is the point of [0, 1] nearest the request |
| SnapCurveProps.SetSnapMultiplierIdempotent | src/FastAnalogRead.cpp:143-158 | setting the same request again, or re-setting the stored value, changes nothing |
| FastAnalogRead.Begin | src/FastAnalogRead.cpp:33-40 | records pin and sleep flag, stores the multiplier through the setter, and yields a valid configuration when the resolution is at least 1 |
| FastAnalogRead.EdgeSnap | src/FastAnalogRead.cpp:64-70 | inactive unless sleep and edge snap are both on; below the threshold the distance to it doubles (2v - T); otherwise, above resolution - T, the distance to that bound doubles (2v + T - R); between the bands the value is kept |
| EdgeSnapProps.EdgeSnapStrictlyMonotone | src/FastAnalogRead.cpp:64-70 | the correction is strictly increasing for every configuration, so it never reorders samples |
| EdgeSnapProps.EdgeSnapFixedPoints | src/FastAnalogRead.cpp:64-70 | a sample is unchanged if and only if edge snap is off or the sample lies between the bands |
| EdgeSnapProps.EdgeSnapExaggerates | src/FastAnalogRead.cpp:61-70 | inside a band the sample moves further toward that rail |
| EdgeSnapProps.EdgeSnapExamples | src/FastAnalogRead.cpp:64-70 | with T = 4 and R = 1024: 2 becomes 0, 1022 becomes 1024, 512 stays |
| FastAnalogRead.Deviation | src/FastAnalogRead.cpp:77-82 | the deviation is the integer part of the distance between input and smoothed value |
| FastAnalogRead.NextErrorEMA | src/FastAnalogRead.cpp:59-89 | the new error estimate is 0.6 of the old one plus 0.4 of the signed deviation |
| FilterProps.NextErrorEMABetween | src/FastAnalogRead.cpp:89 | the new error estimate lies between the old one and the deviation, so its magnitude does not grow beyond both |
| FilterProps.ErrorEstimateUpdate | src/FastAnalogRead.cpp:64-89 | each step, asleep or awake, updates the error estimate from the edge-corrected input |
| FilterProps.SleepDecision | src/FastAnalogRead.cpp:91-95 | through the stage `FastAnalogRead.SleepFlag`: with sleep enabled the flag becomes abs(new error) < threshold; with sleep disabled the flag keeps its value |
| FilterProps.AsleepFrozen | src/FastAnalogRead.cpp:97-102 | when sleep is enabled and the new flag is set, the smoothed value is unchanged and the output is its truncation |
| FastAnalogRead.Blend | src/FastAnalogRead.cpp:123-124 | weight 0 keeps the smoothed value and weight 1 takes the input |
| FilterProps.BlendBetween | src/FastAnalogRead.cpp:123-124 | with a weight in [0, 1] the blended value lies between the smoothed value and the input |
| FastAnalogRead.SnapWeight | src/FastAnalogRead.cpp:114 | the weight applied to the scaled deviation is in [0, 1] |
| FastAnalogRead.AwakeSmooth | src/FastAnalogRead.cpp:114-130 | the awake update always ends in [0, resolution - 1] |
| FilterProps.AwakeShape | src/FastAnalogRead.cpp:104-133 | awake (sleep disabled, or the new error estimate at least the threshold in magnitude), the new smoothed value is the clamped snap-weighted blend toward the corrected input, and the output is its truncation |
| FilterProps.AwakeMovesTowardInput | src/FastAnalogRead.cpp:114-130 | in the awake update the value before the clamp lies between the old smoothed value and the corrected input, and the result lies between the clamped endpoints |
| FilterProps.StepPreservesValid | src/FastAnalogRead.cpp:97-133 | clamp invariant: a step keeps 0 <= smoothed value <= resolution - 1 |
| FilterProps.DeadZone | src/FastAnalogRead.cpp:79-124 | a corrected input less than one unit from the smoothed value has integer deviation 0 and does not move it |
| FilterProps.FullSnap | src/FastAnalogRead.cpp:114-130 | once deviation times multiplier reaches 1, the awake update jumps to the clamped corrected input |
| FilterProps.WakeOnLargeDeviation | src/FastAnalogRead.cpp:89-95 | from a settled error estimate, a corrected deviation of at least 4 thresholds clears the sleep flag in one step |
| FilterProps.StayAsleepOnSmallDeviation | src/FastAnalogRead.cpp:89-102 | from a settled error estimate, a corrected deviation below the threshold keeps the filter asleep and the output frozen |
| FilterProps.StepSteady | src/FastAnalogRead.cpp:97-133 | a corrected input equal to the smoothed value leaves it in place, asleep or awake |
| FastAnalogRead.GetResponsiveValue | src/FastAnalogRead.cpp:57-134 | a step writes only the smoothed value, error estimate and sleep flag; the new error estimate is 0.6 of the old plus 0.4 of the edge-corrected deviation; with sleep enabled the flag is abs(new error) < threshold, with sleep disabled it is kept; asleep, the smoothed value is frozen, otherwise it is the clamped snap-weighted blend toward the corrected input; the output is the truncation of the new smoothed value |
| FastAnalogRead.Update | src/FastAnalogRead.cpp:49-55 | stores the sample, records the old output as previous, keeps the configuration, runs one `getResponsiveValue` step on the sample (smoothed value, error estimate, sleep flag and output are those of the step), and sets the change flag exactly when the new output differs from the previous one |
| FilterProps.UpdatePreservesValid | src/FastAnalogRead.cpp:49-55 | an update keeps the clamp invariant, and its output is in [0, resolution - 1] |
| FilterProps.UpdateSteady | src/FastAnalogRead.cpp:49-55 | a sample whose corrected value equals the smoothed value keeps the output and clears the change flag |
| FilterProps.Run | src/FastAnalogRead.cpp:49-55 | repeated updates keep the configuration and the clamp invariant; afterwards the stored raw value is the last sample and the output is the truncated smoothed value |
| FilterProps.RunSnoc | src/FastAnalogRead.cpp:49-55 | feeding one more sample after a run is one more update of the channel the run reached |
| FilterProps.RunHoldsSteady | src/FastAnalogRead.cpp:49-55 | holding the input at such a value keeps smoothed value and output, and the change flag stays clear, for any number of cycles |
| FilterProps.Feed | src/FastAnalogRead.cpp:49-55 | over any sample sequence the final channel is the run over all samples; entry k of the record is the output and change flag of the run over the first k + 1 samples; every output is in [0, resolution - 1], and cycle k's change flag is set exactly when its output differs from cycle k-1's (the first cycle compares with the starting output) |
| Scenarios.FirstSampleSnapsFully | src/FastAnalogRead.cpp:114-141 | sleep disabled, multiplier 0.01, from rest: one sample of 512 gives output exactly 512 with the change flag set |
| Scenarios.HeldInputSettles | src/FastAnalogRead.cpp:49-134 | default configuration, input held at 300: the output is 300 from the first cycle on, and the change flag is clear from the second |

## Left out

- `begin` pin set-up (`pinMode`, `digitalWrite`): platform I/O. Only its stores and its call to the setter are modelled, in `FastAnalogRead.Begin`.
- The pull variant `update()`: its `analogRead` is a hardware read. The model takes the sample as a parameter through `update(uint16_t)`.
- `enableFastADC`: register programming for AVR and SAMD21, with busy-wait loops and function-local statics. It is hardware plumbing that the filter never reads.
- The representation of `FastAnalogFixed`: its precision, overflow and rounding are not modelled, including the fact that 0.4 is not exact in binary. Every value is an exact real.
- FixedArith.GetInteger: modelled only for non-negative values, where it is floor. The filter never truncates a negative value while `Ready` holds, and nothing is claimed about truncation of negatives.
- The class declaration, accessors, other setters and the initial field values live in `FastAnalogRead.h`, which is not part of this model. The starting point in `Scenarios` uses the library's default settings: sleep and edge snap on, multiplier 0.01, threshold 4, resolution 1024, smoothed value 0.
- Degenerate configuration: a resolution below 1 is excluded by a precondition and is not validated. A negative threshold is allowed, and none of the proved properties need it to be non-negative.
- Long-run claims such as "the filter eventually sleeps" or convergence over many cycles: they depend on numeric details that the code does not promise. Only one-step properties are proved, plus invariants carried over any sequence of samples.
