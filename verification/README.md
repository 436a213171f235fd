# Plant growth stress simulator — Dafny model

This project models the growth recurrence of the plant stress simulator
(`simulate_growth` in `main.py`). A plant starts at size 1.0 with health 1.0.
Each simulated day then does four things:

- it computes a growth rate `0.2 * gravity * nutrients * light`;
- it lowers health by `0.01 * radiation`, floored at 0;
- it adds `rate * health * draw` to the previous size, where `draw` is a
  uniform random multiplier in [0.8, 1.2];
- it floors the new size at 0 and appends it to the series.

The returned series holds one size per day, day 0 included.

Files:

- `growth.dfy`, module `Growth`: the four stressors as the datatype
  `Stressors`, the daily `Rate`, the unfloored daily `Gain` (rate times health
  times multiplier) and `DailyLoss` (health lost to one day of radiation),
  `NextHealth` and `NextSize` (one day's floored health and size,
  main.py:29-34), the recurrence as the recursive function `Trajectory`, and `Series`, the series
  the simulation returns. It also holds `SimulateGrowth`, the simulation loop
  as an imperative method. The method appends to a sequence and updates a
  `health` local, as the source does. Its postcondition says that its result
  equals `Series`.
- `growth_properties.dfy`, module `GrowthProperties`: lemmas about the
  recurrence. They cover the series shape, the zero floor, health decay, the
  zero-rate case, the growth bounds and worked examples. `Loss(radiation, d)`
  is the cumulative loss `0.01 * radiation * d`, and `LinearSize(rate, d)` is
  `1 + rate * d`.

Sizes and health are Dafny `real`s. The random multiplier of day `d`
(counting from 1) is the input `draws[d - 1]`. Since the rate depends only on
the stressors, it is the same every day. So `Trajectory` takes the rate and the
radiation as plain values, and `Series` passes it `Rate(s)`.

Where the code and its informal description differ, the model follows the code:

- The comment on the growth formula calls it "exponential". The formula is
  additive, and `LinearGrowth` proves that growth is linear in the day when
  the rate is non-negative, every draw is 1.0 and there is no radiation.
- The docstring (main.py:15) only says that `days` is the number of days to
  simulate. The loop `range(1, days + 1)` (main.py:24) is empty for any
  `days <= 0`, so the code then returns the series `[1.0]`. `Series` and
  `SimulateGrowth` take `days: int` and return `[1.0]` in that case.
- The rate is computed before health is lowered, and the size update uses the
  lowered health. The order of the first two steps makes no difference.
- Health is said to stay in [0, 1]. The code guarantees this only for
  radiation >= 0: negative radiation raises health above 1. The health lemmas
  therefore require `radiation >= 0`. The floor at 0 holds for any radiation
  (`Trajectory` ensures `health >= 0`).

## Model

| member | source | states |
|---|---|---|
| `Growth.ClampNonNeg` | main.py:30-34 | `max(0.0, x)`: the result is at least 0 and at least `x`, and is either `x` or 0 |
| `Growth.Rate` | main.py:26 | the daily rate is 0 exactly when gravity, nutrients or light is 0, and is non-negative when those three are non-negative; stressors are not clamped, so a negative gravity with positive nutrients and light gives a negative rate |
| `Growth.Trajectory` | main.py:21-34 | after `d` days there are `d + 1` sizes, the first is exactly 1.0, every size is >= 0 for any rate, radiation and draws, and health is >= 0 |
| `Growth.Series` | main.py:21-36 | the returned series is exactly `[1.0]` when `days <= 0` and has `days + 1` elements when `days >= 0`; it starts at 1.0 and every element is >= 0 |
| `Growth.SimulateGrowth` | main.py:10-36 | the loop that appends a floored new size and updates `health` each day returns exactly `Series(days, s, draws)`: length `days + 1` (1 when `days <= 0`), first element 1.0, all elements >= 0 |
| `GrowthProperties.SizesPrefix` | main.py:34 | the series only grows by appending: the series after `d` days starts with the series after any earlier day `i` |
| `GrowthProperties.SizeAt` | main.py:33-34 | size `i` of any longer series is the last size of the series after `i` days |
| `GrowthProperties.DayStep` | main.py:26-34 | for every day: health is `max(0, previous health - 0.01 * radiation)`, and the new size is `max(0, previous size + rate * new health * draw)`; the floor is on the new size, not on the rate |
| `GrowthProperties.HealthClosedForm` | main.py:22-30 | for radiation >= 0, health after `d` days is exactly `max(0, 1 - Loss(radiation, d))`, i.e. `max(0, 1 - 0.01 * radiation * d)` |
| `GrowthProperties.HealthInUnitInterval` | main.py:22-30 | for radiation >= 0, health stays in [0, 1] |
| `GrowthProperties.HealthReachesZero` | main.py:29-30 | for radiation >= 0, health is exactly 0 once `Loss(radiation, d) = 0.01 * radiation * d >= 1` |
| `GrowthProperties.HealthNonIncreasing` | main.py:29-30 | for radiation >= 0, health never rises from one day to any later day, and once it is 0 it stays 0 |
| `GrowthProperties.HealthIgnoresGrowth` | main.py:29-30 | health after `d` days is the same for any rate and any draws: it depends on the radiation and the day only |
| `GrowthProperties.NoRadiationFullHealth` | main.py:29-30 | with radiation 0, health is exactly 1.0 on every day |
| `GrowthProperties.ZeroRateNoGrowth` | main.py:33-34 | at rate 0 every size is exactly 1.0, whatever the radiation and the draws |
| `GrowthProperties.ZeroStressorNoGrowth` | main.py:26-34 | if gravity, nutrients or light is 0, every element of the returned series is 1.0, whatever the radiation and the draws |
| `GrowthProperties.StepIncrement` | main.py:33-34 | at a non-negative rate with a non-negative draw, a day adds exactly `Gain(rate, health, draw) = rate * health * draw` and the size does not fall; the floor does not come into play |
| `GrowthProperties.NonDecreasing` | main.py:33-34 | at a non-negative rate with non-negative draws, the series is non-decreasing |
| `GrowthProperties.BoundedGrowth` | main.py:26-34 | at a non-negative rate with radiation >= 0 and every draw in [0.8, 1.2], each day's increase is at least the gain at the lowest multiplier, `0.8 * rate * health`, and at most the gain at full health and the highest multiplier, `1.2 * rate` |
| `GrowthProperties.SeriesGrowthBounds` | main.py:24-36 | with all four stressors >= 0 and every draw in [0.8, 1.2], the returned series is non-decreasing and rises by at most `Gain(Rate(s), 1.0, 1.2) = 1.2 * Rate(s)` per day |
| `GrowthProperties.StepNonIncreasing` | main.py:33-34 | at a rate <= 0 with a non-negative draw, a day never raises the size |
| `GrowthProperties.NonPositiveRateNonIncreasing` | main.py:33-34 | at a rate <= 0 (a zero stressor, or an odd number of negative ones) with non-negative draws, the series never rises |
| `GrowthProperties.NeverBelowInitialSize` | main.py:33-34 | at a rate >= 0 with non-negative draws, every size is at least the initial size 1.0 |
| `GrowthProperties.ZeroSizeAbsorbing` | main.py:33-34 | for any rate with non-negative draws, once a size is 0 every later size is 0: the plant stagnates at 0 |
| `GrowthProperties.LinearGrowthLast` | main.py:32-34 | with radiation 0, every draw 1.0 and rate >= 0, the last size after `d` days is `LinearSize(rate, d) = 1 + rate * d` |
| `GrowthProperties.LinearGrowth` | main.py:32-34 | with radiation 0, every draw 1.0 and rate >= 0, the size on every day `i` is `LinearSize(rate, i) = 1 + rate * i`: growth is additive, not exponential |
| `GrowthProperties.TwoEarthDays` | main.py:21-36 | two days at gravity, nutrients and light 1.0, radiation 0 and draws `[1.0, 1.0]` give exactly `[1.0, 1.2, 1.4]` |
| `GrowthProperties.MicrogravityFiveDays` | main.py:21-36 | five days at gravity 0 give `[1.0, 1.0, 1.0, 1.0, 1.0, 1.0]` for any radiation, nutrients, light and draws |
| `GrowthProperties.NegativeGravityFloor` | main.py:26-34 | one day at any gravity <= -5, with nutrients and light 1.0, radiation 0 and draw 1.0, gives `[1.0, 0.0]`: a negative rate shrinks the plant and the new size is floored at 0 |

## Left out

- `run_simulation` (main.py:39-78) is left out. It is I/O and library glue: the fixed scenario table, the pandas table and CSV file, the output directory, the matplotlib chart and the console messages.
- The `__main__` entry point (main.py:81-82) is left out.
- The global NumPy random generator is not modelled. Its draws are the `draws` input, one per simulated day. Seeding and generator state cannot be expressed, and calls with more draws than days ignore the extra ones.
- Floating-point rounding is not modelled: sizes and health are exact reals. The exact results such as `[1.0, 1.2, 1.4]` hold over reals only.
- IEEE infinities and NaN cannot be represented, and the floor at 0 does not hold for them in the source. Huge finite stressors overflow the rate to infinity (main.py:26). Health 0 then makes the gain `inf * 0.0 = nan` (main.py:33), and `max(nan, 0.0)` returns NaN (main.py:34). `Growth.Series` and `Growth.SimulateGrowth` promise every element >= 0 only over the reals.
- The conversion of the result to a NumPy array (main.py:36) is not modelled: the result is a `seq<real>`.
- The default argument values of `simulate_growth` (main.py:10) are not modelled. Every call passes all inputs.
- Determinism under a fixed seed gets no lemma of its own: `Series` is a function of its inputs, so equal inputs give equal series.
