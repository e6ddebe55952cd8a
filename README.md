# Follow-the-gap controller, modelled in Dafny

This project models the control pipeline of a reactive follow-the-gap
obstacle avoider for a small autonomous car (`ftg_src.py`). Each time a laser
scan arrives, the controller does five things:

1. It smooths the scan with a three-point moving average. The two end readings are left unchanged.
2. It finds the longest run of consecutive readings farther than 1.23 m (the gap).
3. It aims at the middle index of that gap.
4. It maps that index linearly onto a field of view of 3.14159 rad and clamps the result to [-1, 1] to get the steering command.
5. It derives a throttle. If the mean of the central 5 % of the scan is beyond 7 m and the steering is nearly straight, the throttle grows with that mean (capped at 10 m). Otherwise a step function of the nearest reading picks it. In both cases the result is scaled down by decay and by the steering magnitude.

The model has one module per stage plus the composition:

- `smoothing.dfy` (module `Smoothing`): the smoothing stage as a method. It copies the scan into an array and updates the interior slots in a loop. It is proved equal to the specification function `Smoothed`.
- `gap_search.dfy` (module `GapSearch`): the one-pass gap search as a method with loop invariants. Its result is pinned down by the declarative predicate `IsMaxGap`:
  - no clear reading gives `[0, 0]`;
  - otherwise the result is an all-clear interval that no clear interval is longer than;
  - among the longest ones, it is the leftmost.
- `steering.dfy` (module `Steering`): the midpoint and the steering command as functions.
- `throttle.dfy` (module `ThrottleControl`): the centre window, centre mean, nearest reading, step function and throttle as functions.
- `controller.dfy` (module `Controller`): the callback's composition. Its result is `Publish(steering, throttle)`, or `ZeroDivision` when the source would raise before publishing anything.

Readings, angles and throttles are Dafny `real`s. Every literal is taken as the exact decimal it spells.

Two examples come out differently from what one might expect:

- One might expect ten readings of 10 m to drive straight at a throttle of about 0.455. The code does not. The gap `[0, 9]` has midpoint 4, which is left of the centre 5, so the steering is -0.314159. That is not below 0.1 in magnitude, so the step branch gives the throttle: 0.9 · 0.15 · (1.01 − 0.314159). `Controller.TenClearScenario` proves these values.
- One might expect a lone obstacle at 0.05 m among readings of 9.9 m to drop the base throttle to 0.01. It does not. The throttle stage takes the nearest distance over the SMOOTHED scan. There the obstacle is averaged with its two neighbours to about 6.62 m, so the base throttle is 0.15 and the commands equal those of the all-clear scan. `Controller.CentreObstacleScenario` proves this.

The model follows the code in both cases.

## Model

| member | source | states |
|---|---|---|
| `Smoothing.Smoothed` | ftg_src.py:37-43 | The smoothed scan has the input's length. Its first and last readings are the input's. A scan shorter than three readings comes back unchanged. |
| `Smoothing.Preprocess` | ftg_src.py:37-43 | The in-place loop over a copy yields exactly `Smoothed(ranges)`. Every interior slot is the mean of the ORIGINAL readings i-1, i and i+1, not of already smoothed neighbours. |
| `Smoothing.SmoothedConstant` | ftg_src.py:40-42 | Smoothing a constant scan leaves every reading at that constant. |
| `Smoothing.SmoothedWithinRaw` | ftg_src.py:40-42 | If all raw readings lie in [lo, hi], so do all smoothed readings. Averaging never reports an obstacle nearer than the nearest raw return. |
| `GapSearch.RunBefore` | ftg_src.py:50-61 | The run counter `curr` after k readings is no longer than k. When it is positive, reading k-1 is clear. |
| `GapSearch.RunBeforeIsClear` | ftg_src.py:52-53 | Every reading in the run that the counter measures is above the threshold. |
| `GapSearch.RunBeforeCovers` | ftg_src.py:52-53 | A clear interval ending at hi makes the counter at hi+1 at least the interval's length. No run is missed. |
| `GapSearch.FindMaxGap` | ftg_src.py:45-63 | The result satisfies `IsMaxGap`. With no reading above 1.23 it is exactly (0, 0). Otherwise [start, end] is all clear, no clear interval is longer, and a clear interval of equal length starts no earlier (strict `>` makes the leftmost win). For a non-empty scan, 0 <= start <= end < n. |
| `GapSearch.GapUnique` | ftg_src.py:54-58 | At most one interval meets the gap specification, so longest-plus-leftmost fixes the search's answer. |
| `GapSearch.GapGrowsWithClearance` | ftg_src.py:52-61 | Raising readings, pointwise, never shortens the reported gap. |
| `Steering.Midpoint` | ftg_src.py:65-68 | The result is floor((start+end)/2). For start <= end it lies in [start, end] and is at most half an index left of the true centre. |
| `Steering.Clamp` | ftg_src.py:75-77 | The result lies in [-bound, bound]. It equals the input inside the bound and the nearer bound outside it. |
| `Steering.SteeringAngle` | ftg_src.py:70-80 | For totalpoints > 0 the command lies in [-1, 1]. It is negative, zero or positive exactly as bestpoint is below, at or above totalpoints/2. |
| `Steering.RawAngleSign` | ftg_src.py:72-73 | The unclamped angle has the sign of bestpoint - totalpoints/2. |
| `Steering.SteeringMonotone` | ftg_src.py:70-77 | The steering command is non-decreasing in bestpoint. |
| `Steering.SteeringSymmetric` | ftg_src.py:72-77 | Indices mirrored about totalpoints/2 give opposite commands. |
| `Steering.OddScanNeverStraight` | ftg_src.py:72-77 | For an odd number of readings the command is never exactly 0. |
| `ThrottleControl.TruncToInt` | ftg_src.py:86 | `int()` truncates toward zero. The result is within one of its argument, on the side of zero. |
| `ThrottleControl.CenterWindow` | ftg_src.py:84-86 | The slice bounds satisfy 0 <= lo <= hi <= n. The window is non-empty exactly when n >= 2. It then starts before n//2, ends at or after it, and is within one reading of n/20 wide. |
| `ThrottleControl.MeanBetween` | ftg_src.py:86 | The mean of a non-empty slice lies between its least and its greatest reading. |
| `ThrottleControl.CenterAverage` | ftg_src.py:86 | The centre mean is bracketed by readings of the centre window: one no farther, one no nearer. |
| `ThrottleControl.Min` | ftg_src.py:87 | The nearest distance is one of the readings and no reading is nearer. |
| `ThrottleControl.StepThrottle` | ftg_src.py:97 | The reactive base throttle is one of 0.01, 0.04, 0.15, 0.2, so it is never the 0.3 of the repeated `> 0.6` test. |
| `ThrottleControl.StepThrottleBrackets` | ftg_src.py:97 | First match reads as disjoint brackets: above 0.6 gives 0.15, (0.4, 0.6] gives 0.2, (0.12, 0.4] gives 0.15, (0.09, 0.12] gives 0.04, otherwise 0.01. |
| `ThrottleControl.StepThrottleNotMonotone` | ftg_src.py:97 | An obstacle at 0.5 m allows more throttle than one at 1 m. |
| `ThrottleControl.BaseThrottle` | ftg_src.py:88-97 | The base throttle lies in (0, 0.5005]. On the straight branch it exceeds 0.3505 and reaches 0.5005 once the centre mean is capped at 10. Off it, it is the step function of the nearest reading. |
| `ThrottleControl.BaseThrottleMonotoneInCenter` | ftg_src.py:89-94 | On the straight branch the base throttle does not decrease as the centre mean grows. |
| `ThrottleControl.SteeringScale` | ftg_src.py:100 | The steering factor is 1.01 - abs(steer), in [0.01, 1.01] for a command in [-1, 1]. |
| `ThrottleControl.ThrottleFrom` | ftg_src.py:88-100 | For a steering command in [-1, 1] the throttle lies in (0, 0.9·0.5005·1.01]. |
| `ThrottleControl.Throttle` | ftg_src.py:82-103 | For a scan of at least two readings and a steering command in [-1, 1], the throttle is positive and at most 0.9·0.5005·1.01. |
| `ThrottleControl.ThrottleFallsWithSteering` | ftg_src.py:88-100 | For the same centre mean and nearest reading, a larger steering magnitude never gives a larger throttle, even when it leaves the straight branch. |
| `ThrottleControl.ThrottleSymmetric` | ftg_src.py:89-100 | The throttle depends on the magnitude of the steering command, not its sign. |
| `ThrottleControl.StraightFasterThanReactive` | ftg_src.py:88-100 | Any straight-branch throttle exceeds any step-branch throttle whose steering lies in [-1, 1]. |
| `ThrottleControl.StraightMeansClearCentre` | ftg_src.py:86-89 | The straight branch needs some centre reading beyond 7 m. It is taken whenever all centre readings are beyond 7 m and abs(steer) < 0.1. |
| `ThrottleControl.NearObstacleCrawls` | ftg_src.py:87-100 | Off the straight branch, any SMOOTHED reading within 0.09 m (a reading of the scan the throttle stage receives) caps the throttle at 0.9·0.01·1.01. |
| `Controller.CommandFor` | ftg_src.py:29-32 | From a smoothed scan of at least two readings and a gap, the pipeline publishes steering in [-1, 1] and throttle in (0, 0.9·0.5005·1.01]. |
| `Controller.LidarCallback` | ftg_src.py:22-35 | The callback fails (division by zero, nothing published) exactly for scans of fewer than two readings. Otherwise it publishes `CommandFor` the smoothed scan and its gap, both commands within the actuator ranges. The gap is returned as ghost results and meets `IsMaxGap`. |
| `Controller.OutcomeDetermined` | ftg_src.py:28-32 | The published pair is a function of the scan alone. |
| `Controller.SteersTowardGap` | ftg_src.py:28-31 | A gap wholly right of the centre gives positive steering; a gap wholly left gives negative steering. |
| `Controller.AllBlockedFullLock` | ftg_src.py:47-77 | With no reading above 1.23 m the gap stays [0, 0], and the aim point, index 0, maps to -Pi/2, so the command is full lock, -1. |
| `Controller.TenClearScenario` | ftg_src.py:24-32 | For ten readings of 10 m: smoothing changes nothing, the gap is [0, 9], and the commands are steering -0.314159 and throttle 0.9·0.15·(1.01-0.314159). |
| `Controller.TenClearCommand` | ftg_src.py:29-32 | The commands the gap [0, 9] of ten 10 m readings leads to. |
| `Controller.TenClearCenter` | ftg_src.py:84-86 | The centre window of ten readings is [4, 5), and the centre mean of ten 10 m readings is 10. |
| `Controller.CentreObstacleScenario` | ftg_src.py:24-32 | For nine readings of 9.9 m and one of 0.05 m at index 5: the nearest smoothed reading is beyond 0.6 m, the gap is [0, 9], and the commands are steering -0.314159 and throttle 0.9·0.15·(1.01-0.314159). The obstacle does not slow the vehicle. |
| `Controller.CentreObstacleSmoothed` | ftg_src.py:37-43 | Smoothing that scan turns indices 4, 5 and 6 into 19.85/3 (about 6.62 m) and leaves the other readings at 9.9 m. |
| `Controller.CentreObstacleCenter` | ftg_src.py:84-86 | The centre mean of the smoothed obstacle scan is 19.85/3, below the 7 m of the straight branch. |

## Left out

- The ROS node is not part of this model: construction, subscription and publishers (ftg_src.py:7-20), the publish helpers (ftg_src.py:105-117), `destroynode` and `main`. These are transport and lifecycle code built on library calls. The callback's two publish calls are represented by the `Publish` outcome.
- The zero-command failsafe on keyboard interrupt (ftg_src.py:129-137) is not modelled. It is host signal handling, outside the pipeline.
- Logging calls (ftg_src.py:10, 79, 102, 110, 117) are not modelled. They have no effect on the commands.
- IEEE-754 behaviour is not modelled. Readings are exact reals, so rounding is not captured. For example, when n·0.05/2 is computed in floating point, its truncation may differ from the exact value at window bounds that fall on an integer. Infinite and NaN readings are not modelled either. The cap at 10 m is the only treatment of "no return" readings.
- The literals 3.14159, 0.05 and 1.23 are taken as exact decimals, not as their binary approximations.
- Callback scheduling, queue depth and the sensor rate are not modelled. They belong to the host.
