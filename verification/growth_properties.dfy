/**
 * Properties of the growth recurrence: the shape of the series, the
 * zero floor, the health decay, the zero-rate case, the growth bounds
 * and worked examples.
 *
 * Most lemmas are stated for a daily `rate` and a `radiation` level; the
 * stressor-level statements go through the contract of `Rate`. The real
 * arithmetic of one day is kept in small lemmas about plain numbers.
 */
module GrowthProperties {
  import opened Growth

  // ---------------------------------------------------------------------
  // Arithmetic of a single day

  /** Health lost to `radiation` over `days` days, before the floor. */
  function Loss(radiation: real, days: nat): (loss: real)
  {
    DailyLoss(radiation) * (days as real)
  }

  /** Size after `d` days of additive growth by `rate` a day. */
  function LinearSize(rate: real, d: nat): (size: real)
  {
    InitialSize + rate * (d as real)
  }

  /** The gain has the sign of the rate when health and multiplier are non-negative. */
  lemma GainSign(r: real, h: real, x: real)
    requires 0.0 <= h && 0.0 <= x
    ensures 0.0 <= r ==> 0.0 <= Gain(r, h, x)
    ensures r <= 0.0 ==> Gain(r, h, x) <= 0.0
  {
  }

  /**
   * For r >= 0, 0 <= h <= 1 and x in [0.8, 1.2], the gain lies between the
   * gain at the lowest multiplier and the gain at full health and the
   * highest multiplier.
   */
  lemma GainBounds(r: real, h: real, x: real)
    requires 0.0 <= r && 0.0 <= h <= 1.0 && DrawLow <= x <= DrawHigh
    ensures Gain(r, h, DrawLow) <= Gain(r, h, x) <= Gain(r, 1.0, DrawHigh)
    ensures 0.0 <= Gain(r, h, DrawLow)
  {
    var p := r * h;
    assert 0.0 <= p <= r by { assert r * (1.0 - h) >= 0.0; }
    assert p * (x - DrawLow) >= 0.0 && p * (DrawHigh - x) >= 0.0;
    assert (r - p) * DrawHigh >= 0.0;
  }

  /** A day at full health and multiplier 1.0 adds exactly the rate. */
  lemma UnitGain(r: real)
    ensures Gain(r, 1.0, 1.0) == r
  {
  }

  /** One more day adds one daily loss, and for radiation >= 0 that loss is not negative. */
  lemma LossStep(radiation: real, k: nat)
    requires 1 <= k
    ensures Loss(radiation, k) == Loss(radiation, k - 1) + DailyLoss(radiation)
    ensures 0.0 <= radiation ==> 0.0 <= DailyLoss(radiation)
  {
  }

  /** For radiation >= 0 the loss is non-negative and grows with the number of days. */
  lemma LossMonotone(radiation: real, k1: nat, k2: nat)
    requires 0.0 <= radiation && k1 <= k2
    ensures 0.0 <= Loss(radiation, k1) <= Loss(radiation, k2)
  {
  }

  /** One more day of additive growth adds one rate. */
  lemma LinearStep(rate: real, k: nat)
    requires 1 <= k
    ensures LinearSize(rate, k) == LinearSize(rate, k - 1) + rate
  {
  }

  // ---------------------------------------------------------------------
  // Shape of the series

  /** The series after `d` days extends the series after any earlier day `i`. */
  lemma {:induction false} SizesPrefix(rate: real, radiation: real, draws: seq<real>, i: nat, d: nat)
    requires i <= d <= |draws|
    ensures Sizes(rate, radiation, draws, d)[..i + 1] == Sizes(rate, radiation, draws, i)
  {
    if i < d {
      SizesPrefix(rate, radiation, draws, i, d - 1);
      assert Sizes(rate, radiation, draws, d)[..d] == Sizes(rate, radiation, draws, d - 1);
    }
  }

  /** Element `i` of any longer series is the last element of the series after `i` days. */
  lemma {:induction false} SizeAt(rate: real, radiation: real, draws: seq<real>, i: nat, d: nat)
    requires i <= d <= |draws|
    ensures Sizes(rate, radiation, draws, d)[i] == Last(Sizes(rate, radiation, draws, i))
  {
    SizesPrefix(rate, radiation, draws, i, d);
    assert Sizes(rate, radiation, draws, d)[..i + 1][i] == Sizes(rate, radiation, draws, d)[i];
  }

  /**
   * One day of the recurrence, read off the whole series: health drops by
   * `0.01 * radiation` floored at 0, and the new size adds
   * `rate * health * draw` to the previous one, floored at 0.
   */
  lemma {:induction false} DayStep(rate: real, radiation: real, draws: seq<real>, i: nat, d: nat)
    requires i < d <= |draws|
    ensures Health(rate, radiation, draws, i + 1)
         == ClampNonNeg(Health(rate, radiation, draws, i) - DailyLoss(radiation))
    ensures Sizes(rate, radiation, draws, d)[i + 1]
         == ClampNonNeg(Sizes(rate, radiation, draws, d)[i] + Gain(rate, Health(rate, radiation, draws, i + 1), draws[i]))
  {
    SizeAt(rate, radiation, draws, i, d);
    SizeAt(rate, radiation, draws, i + 1, d);
    var prev := Sizes(rate, radiation, draws, i);
    var h := Health(rate, radiation, draws, i + 1);
    assert Sizes(rate, radiation, draws, i + 1) == prev + [NextSize(Last(prev), rate, h, draws[i])];
  }

  // ---------------------------------------------------------------------
  // Health

  /** For radiation >= 0, health after `d` days is `max(0, 1 - 0.01 * radiation * d)`. */
  lemma {:induction false} HealthClosedForm(rate: real, radiation: real, draws: seq<real>, d: nat)
    requires radiation >= 0.0 && d <= |draws|
    ensures Health(rate, radiation, draws, d)
         == ClampNonNeg(InitialHealth - Loss(radiation, d))
  {
    if d > 0 {
      HealthClosedForm(rate, radiation, draws, d - 1);
      LossStep(radiation, d);
    }
  }

  /** For radiation >= 0 health stays in [0, 1]. */
  lemma {:induction false} HealthInUnitInterval(rate: real, radiation: real, draws: seq<real>, d: nat)
    requires radiation >= 0.0 && d <= |draws|
    ensures 0.0 <= Health(rate, radiation, draws, d) <= 1.0
  {
    HealthClosedForm(rate, radiation, draws, d);
    LossMonotone(radiation, 0, d);
  }

  /** Health is exactly 0 once the cumulative loss `0.01 * radiation * d` reaches 1. */
  lemma {:induction false} HealthReachesZero(rate: real, radiation: real, draws: seq<real>, d: nat)
    requires radiation >= 0.0 && d <= |draws|
    requires Loss(radiation, d) >= 1.0
    ensures Health(rate, radiation, draws, d) == 0.0
  {
    HealthClosedForm(rate, radiation, draws, d);
  }

  /** For radiation >= 0 health never rises, and once it reaches 0 it stays 0. */
  lemma {:induction false} HealthNonIncreasing(rate: real, radiation: real, draws: seq<real>, d1: nat, d2: nat)
    requires radiation >= 0.0 && d1 <= d2 <= |draws|
    ensures Health(rate, radiation, draws, d2) <= Health(rate, radiation, draws, d1)
    ensures Health(rate, radiation, draws, d1) == 0.0 ==> Health(rate, radiation, draws, d2) == 0.0
  {
    HealthClosedForm(rate, radiation, draws, d1);
    HealthClosedForm(rate, radiation, draws, d2);
    LossMonotone(radiation, d1, d2);
  }

  /**
   * Health depends on the radiation and the number of days only: neither the
   * rate nor the multipliers drawn so far change it.
   */
  lemma {:induction false} HealthIgnoresGrowth(rate1: real, rate2: real, radiation: real, draws1: seq<real>, draws2: seq<real>, d: nat)
    requires d <= |draws1| && d <= |draws2|
    ensures Health(rate1, radiation, draws1, d) == Health(rate2, radiation, draws2, d)
  {
    if d > 0 {
      HealthIgnoresGrowth(rate1, rate2, radiation, draws1, draws2, d - 1);
    }
  }

  /** Without radiation, health is exactly 1.0 every day. */
  lemma {:induction false} NoRadiationFullHealth(rate: real, draws: seq<real>, d: nat)
    requires d <= |draws|
    ensures Health(rate, 0.0, draws, d) == 1.0
  {
    if d > 0 {
      NoRadiationFullHealth(rate, draws, d - 1);
    }
  }

  // ---------------------------------------------------------------------
  // Zero rate

  /** At rate 0 every size is 1.0, whatever the radiation and the draws. */
  lemma {:induction false} ZeroRateNoGrowth(radiation: real, draws: seq<real>, d: nat)
    requires d <= |draws|
    ensures forall i :: 0 <= i <= d ==> Sizes(0.0, radiation, draws, d)[i] == 1.0
  {
    if d > 0 {
      ZeroRateNoGrowth(radiation, draws, d - 1);
      var prev := Sizes(0.0, radiation, draws, d - 1);
      var h := Health(0.0, radiation, draws, d);
      assert Sizes(0.0, radiation, draws, d) == prev + [NextSize(Last(prev), 0.0, h, draws[d - 1])];
    }
  }

  /**
   * If gravity, nutrients or light is 0, the returned series is 1.0 on
   * every day, whatever the radiation and the draws.
   */
  lemma ZeroStressorNoGrowth(days: int, s: Stressors, draws: seq<real>)
    requires s.gravity == 0.0 || s.nutrients == 0.0 || s.light == 0.0
    requires days <= |draws|
    ensures forall i :: 0 <= i < |Series(days, s, draws)| ==> Series(days, s, draws)[i] == 1.0
  {
    ZeroRateNoGrowth(s.radiation, draws, if days <= 0 then 0 else days);
  }

  // ---------------------------------------------------------------------
  // Non-negative rate: growth

  /**
   * At a non-negative rate with a non-negative draw, day `i + 1` adds
   * exactly `rate * health * draw`: the floor does not apply, and the size
   * does not fall.
   */
  lemma {:induction false} StepIncrement(rate: real, radiation: real, draws: seq<real>, i: nat, d: nat)
    requires i < d <= |draws| && 0.0 <= rate && 0.0 <= draws[i]
    ensures Sizes(rate, radiation, draws, d)[i + 1]
         == Sizes(rate, radiation, draws, d)[i] + Gain(rate, Health(rate, radiation, draws, i + 1), draws[i])
    ensures Sizes(rate, radiation, draws, d)[i] <= Sizes(rate, radiation, draws, d)[i + 1]
  {
    DayStep(rate, radiation, draws, i, d);
    GainSign(rate, Health(rate, radiation, draws, i + 1), draws[i]);
  }

  /** With a non-negative rate and non-negative draws the series is non-decreasing. */
  lemma {:induction false} NonDecreasing(rate: real, radiation: real, draws: seq<real>, d: nat)
    requires 0.0 <= rate && DrawsNonNegative(draws) && d <= |draws|
    ensures forall i :: 0 <= i < d ==> Sizes(rate, radiation, draws, d)[i] <= Sizes(rate, radiation, draws, d)[i + 1]
  {
    forall i | 0 <= i < d
      ensures Sizes(rate, radiation, draws, d)[i] <= Sizes(rate, radiation, draws, d)[i + 1]
    {
      StepIncrement(rate, radiation, draws, i, d);
    }
  }

  /**
   * With a non-negative rate, radiation >= 0 and every draw in [0.8, 1.2],
   * the increase on day `i + 1` is at least the gain at the lowest
   * multiplier, `0.8 * rate * health`, and at most the gain at full health
   * and the highest multiplier, `1.2 * rate`.
   */
  lemma {:induction false} BoundedGrowth(rate: real, radiation: real, draws: seq<real>, i: nat, d: nat)
    requires 0.0 <= rate && 0.0 <= radiation
    requires DrawsInRange(draws) && i < d <= |draws|
    ensures Gain(rate, Health(rate, radiation, draws, i + 1), DrawLow)
         <= Sizes(rate, radiation, draws, d)[i + 1] - Sizes(rate, radiation, draws, d)[i]
         <= Gain(rate, 1.0, DrawHigh)
  {
    StepIncrement(rate, radiation, draws, i, d);
    HealthInUnitInterval(rate, radiation, draws, i + 1);
    GainBounds(rate, Health(rate, radiation, draws, i + 1), draws[i]);
  }

  /**
   * With every stressor non-negative and every draw in [0.8, 1.2], the
   * returned series is non-decreasing and grows by at most `1.2 * Rate(s)`
   * a day.
   */
  lemma SeriesGrowthBounds(days: int, s: Stressors, draws: seq<real>)
    requires 0.0 <= s.gravity && 0.0 <= s.radiation && 0.0 <= s.nutrients && 0.0 <= s.light
    requires DrawsInRange(draws) && days <= |draws|
    ensures forall i :: 0 <= i < |Series(days, s, draws)| - 1 ==>
      Series(days, s, draws)[i] <= Series(days, s, draws)[i + 1] <= Series(days, s, draws)[i] + Gain(Rate(s), 1.0, DrawHigh)
  {
    var d := if days <= 0 then 0 else days;
    forall i | 0 <= i < |Series(days, s, draws)| - 1
      ensures Series(days, s, draws)[i] <= Series(days, s, draws)[i + 1] <= Series(days, s, draws)[i] + Gain(Rate(s), 1.0, DrawHigh)
    {
      BoundedGrowth(Rate(s), s.radiation, draws, i, d);
      StepIncrement(Rate(s), s.radiation, draws, i, d);
    }
  }

  // ---------------------------------------------------------------------
  // Non-positive rate: the floor

  /** At a non-positive rate (a zero stressor, or an odd number of negative ones) with a non-negative draw, day `i + 1` does not raise the size. */
  lemma {:induction false} StepNonIncreasing(rate: real, radiation: real, draws: seq<real>, i: nat, d: nat)
    requires i < d <= |draws| && rate <= 0.0 && 0.0 <= draws[i]
    ensures Sizes(rate, radiation, draws, d)[i + 1] <= Sizes(rate, radiation, draws, d)[i]
  {
    DayStep(rate, radiation, draws, i, d);
    GainSign(rate, Health(rate, radiation, draws, i + 1), draws[i]);
  }

  /** With a non-positive rate and non-negative draws the series never rises. */
  lemma {:induction false} NonPositiveRateNonIncreasing(rate: real, radiation: real, draws: seq<real>, d: nat)
    requires rate <= 0.0 && DrawsNonNegative(draws) && d <= |draws|
    ensures forall i :: 0 <= i < d ==> Sizes(rate, radiation, draws, d)[i + 1] <= Sizes(rate, radiation, draws, d)[i]
  {
    forall i | 0 <= i < d
      ensures Sizes(rate, radiation, draws, d)[i + 1] <= Sizes(rate, radiation, draws, d)[i]
    {
      StepNonIncreasing(rate, radiation, draws, i, d);
    }
  }

  /**
   * At a non-negative rate with non-negative draws the plant never drops
   * below its initial size 1.0.
   */
  lemma {:induction false} NeverBelowInitialSize(rate: real, radiation: real, draws: seq<real>, d: nat, i: nat)
    requires 0.0 <= rate && DrawsNonNegative(draws) && i <= d <= |draws|
    ensures InitialSize <= Sizes(rate, radiation, draws, d)[i]
  {
    if 0 < i {
      NeverBelowInitialSize(rate, radiation, draws, d, i - 1);
      StepIncrement(rate, radiation, draws, i - 1, d);
    }
  }

  /**
   * With non-negative draws a size of 0 is never left again, whatever the
   * rate: the floor on the new size lets the plant stagnate at 0. A rate
   * <= 0 never raises the size, and at a rate >= 0 the size never reaches 0.
   */
  lemma {:induction false} ZeroSizeAbsorbing(rate: real, radiation: real, draws: seq<real>, d: nat, i: nat, j: nat)
    requires DrawsNonNegative(draws) && d <= |draws|
    requires i <= j <= d && Sizes(rate, radiation, draws, d)[i] == 0.0
    ensures Sizes(rate, radiation, draws, d)[j] == 0.0
  {
    if 0.0 < rate {
      NeverBelowInitialSize(rate, radiation, draws, d, i);
      assert false;
    } else if i < j {
      ZeroSizeAbsorbing(rate, radiation, draws, d, i, j - 1);
      StepNonIncreasing(rate, radiation, draws, j - 1, d);
    }
  }

  // ---------------------------------------------------------------------
  // Additive growth and worked examples

  /**
   * Without radiation and with every draw 1.0, the size after `d` days is
   * `1 + rate * d` for a non-negative rate.
   */
  lemma {:induction false} LinearGrowthLast(rate: real, draws: seq<real>, d: nat)
    requires 0.0 <= rate && d <= |draws|
    requires forall i :: 0 <= i < |draws| ==> draws[i] == 1.0
    ensures Last(Sizes(rate, 0.0, draws, d)) == LinearSize(rate, d)
  {
    if d > 0 {
      LinearGrowthLast(rate, draws, d - 1);
      NoRadiationFullHealth(rate, draws, d);
      StepIncrement(rate, 0.0, draws, d - 1, d);
      SizeAt(rate, 0.0, draws, d - 1, d);
      UnitGain(rate);
      LinearStep(rate, d);
    }
  }

  /**
   * Without radiation and with every draw 1.0 the size on day `i` is
   * `1 + rate * i`: growth is additive, not exponential.
   */
  lemma LinearGrowth(rate: real, draws: seq<real>, d: nat)
    requires 0.0 <= rate && d <= |draws|
    requires forall i :: 0 <= i < |draws| ==> draws[i] == 1.0
    ensures forall i :: 0 <= i <= d ==> Sizes(rate, 0.0, draws, d)[i] == LinearSize(rate, i)
  {
    forall i | 0 <= i <= d
      ensures Sizes(rate, 0.0, draws, d)[i] == LinearSize(rate, i)
    {
      SizeAt(rate, 0.0, draws, i, d);
      LinearGrowthLast(rate, draws, i);
    }
  }

  /** Two Earth days with both draws 1.0 give [1.0, 1.2, 1.4]. */
  lemma TwoEarthDays(draws: seq<real>)
    requires draws == [1.0, 1.0]
    ensures Series(2, Stressors(1.0, 0.0, 1.0, 1.0), draws) == [1.0, 1.2, 1.4]
  {
    assert Rate(Stressors(1.0, 0.0, 1.0, 1.0)) == 0.2;
    LinearGrowth(0.2, draws, 2);
  }

  /** Five days of microgravity leave the plant at size 1.0, whatever the other inputs. */
  lemma MicrogravityFiveDays(radiation: real, nutrients: real, light: real, draws: seq<real>)
    requires 5 <= |draws|
    ensures Series(5, Stressors(0.0, radiation, nutrients, light), draws) == [1.0, 1.0, 1.0, 1.0, 1.0, 1.0]
  {
    ZeroStressorNoGrowth(5, Stressors(0.0, radiation, nutrients, light), draws);
  }

  /**
   * One day at gravity -5 or below, with the other stressors 1.0, no
   * radiation and draw 1.0, takes the size from 1.0 to 0.0: the floor is on
   * the new size, so a negative rate shrinks the plant (a floor on the rate
   * would have kept it at 1.0).
   */
  lemma NegativeGravityFloor(gravity: real, draws: seq<real>)
    requires gravity <= -5.0 && draws == [1.0]
    ensures Series(1, Stressors(gravity, 0.0, 1.0, 1.0), draws) == [1.0, 0.0]
  {
    var rate := Rate(Stressors(gravity, 0.0, 1.0, 1.0));
    assert rate <= -1.0;
    NoRadiationFullHealth(rate, draws, 1);
    DayStep(rate, 0.0, draws, 0, 1);
    UnitGain(rate);
  }
}
