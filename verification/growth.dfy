/**
 * The day-by-day growth recurrence of the plant stress simulator.
 *
 * Plant size and plant health are modelled as mathematical reals. The
 * uniform random multiplier drawn each day is an explicit input: the
 * multiplier of day `d` (counting from 1) is `draws[d - 1]`.
 */
module Growth {

  /** The four environmental stressors of one scenario. */
  datatype Stressors = Stressors(gravity: real, radiation: real, nutrients: real, light: real)

  /** Size of the plant on day 0 and its health before the first day. */
  const InitialSize: real := 1.0
  const InitialHealth: real := 1.0

  /** Baseline growth per day, and health lost per day per unit of radiation. */
  const BaseRate: real := 0.2
  const RadiationDamage: real := 0.01

  /** Bounds of the uniform random multiplier. */
  const DrawLow: real := 0.8
  const DrawHigh: real := 1.2

  predicate DrawsInRange(draws: seq<real>)
  {
    forall i :: 0 <= i < |draws| ==> DrawLow <= draws[i] <= DrawHigh
  }

  predicate DrawsNonNegative(draws: seq<real>)
  {
    forall i :: 0 <= i < |draws| ==> 0.0 <= draws[i]
  }

  /** The larger of `x` and 0.0, as `max(0.0, x)` and `max(x, 0.0)` compute it. */
  function ClampNonNeg(x: real): (r: real)
    ensures r >= 0.0 && r >= x
    ensures r == x || r == 0.0
  {
    if x >= 0.0 then x else 0.0
  }

  /**
   * Growth rate of one day: the baseline scaled by gravity, nutrients and
   * light. One zero stressor stops growth. The rate is not clamped, so a
   * negative gravity with positive nutrients and light gives a negative rate.
   */
  function Rate(s: Stressors): (r: real)
    ensures r == 0.0 <==> (s.gravity == 0.0 || s.nutrients == 0.0 || s.light == 0.0)
    ensures 0.0 <= s.gravity && 0.0 <= s.nutrients && 0.0 <= s.light ==> r >= 0.0
    ensures s.gravity < 0.0 && 0.0 < s.nutrients && 0.0 < s.light ==> r < 0.0
  {
    BaseRate * s.gravity * s.nutrients * s.light
  }

  /** The size one day adds before the floor: rate times health times the day's multiplier. */
  function Gain(rate: real, health: real, draw: real): (g: real)
  {
    rate * health * draw
  }

  /** Health one day of `radiation` takes away, before the floor. */
  function DailyLoss(radiation: real): (loss: real)
  {
    RadiationDamage * radiation
  }

  /** Health after one more day of radiation, floored at zero. */
  function NextHealth(health: real, radiation: real): (h: real)
  {
    ClampNonNeg(health - DailyLoss(radiation))
  }

  /** Size after one more day: the floor applies to the new size, not to the rate. */
  function NextSize(size: real, rate: real, health: real, draw: real): (size': real)
  {
    ClampNonNeg(size + Gain(rate, health, draw))
  }

  function Last(s: seq<real>): (x: real)
    requires |s| > 0
  {
    s[|s| - 1]
  }

  /** The two running values of a simulation: the sizes so far and the current health. */
  datatype Run = Run(sizes: seq<real>, health: real)

  /**
   * The state after `d` days of growth at the daily `rate` under `radiation`.
   * The rate depends on the stressors only, so it is the same every day.
   */
  function Trajectory(rate: real, radiation: real, draws: seq<real>, d: nat): (r: Run)
    requires d <= |draws|
    ensures |r.sizes| == d + 1
    ensures r.sizes[0] == InitialSize
    ensures forall i :: 0 <= i < |r.sizes| ==> r.sizes[i] >= 0.0
    ensures r.health >= 0.0
  {
    if d == 0 then
      Run([InitialSize], InitialHealth)
    else
      var prev := Trajectory(rate, radiation, draws, d - 1);
      var health := NextHealth(prev.health, radiation);
      Run(prev.sizes + [NextSize(Last(prev.sizes), rate, health, draws[d - 1])], health)
  }

  /** Shorthands for the two halves of `Trajectory`. */
  function Sizes(rate: real, radiation: real, draws: seq<real>, d: nat): (sizes: seq<real>)
    requires d <= |draws|
  {
    Trajectory(rate, radiation, draws, d).sizes
  }

  function Health(rate: real, radiation: real, draws: seq<real>, d: nat): (h: real)
    requires d <= |draws|
  {
    Trajectory(rate, radiation, draws, d).health
  }

  /** The series the simulation returns: no day is simulated when `days <= 0`. */
  function Series(days: int, s: Stressors, draws: seq<real>): (g: seq<real>)
    requires days <= |draws|
    ensures days <= 0 ==> g == [InitialSize]
    ensures days >= 0 ==> |g| == days + 1
    ensures g[0] == InitialSize
    ensures forall i :: 0 <= i < |g| ==> g[i] >= 0.0
  {
    Sizes(Rate(s), s.radiation, draws, if days <= 0 then 0 else days)
  }

  /**
   * The simulation loop: each day computes the rate, lowers the health,
   * and appends the floored new size.
   */
  method SimulateGrowth(days: int, s: Stressors, draws: seq<real>) returns (growth: seq<real>)
    requires days <= |draws|
    ensures growth == Series(days, s, draws)
    ensures |growth| == (if days <= 0 then 1 else days + 1)
    ensures growth[0] == InitialSize
    ensures forall i :: 0 <= i < |growth| ==> growth[i] >= 0.0
  {
    growth := [InitialSize];
    var health := InitialHealth;
    var day := 1;
    while day <= days
      invariant 1 <= day <= (if days <= 0 then 0 else days) + 1
      invariant growth == Sizes(Rate(s), s.radiation, draws, day - 1)
      invariant health == Health(Rate(s), s.radiation, draws, day - 1)
    {
      var rate := Rate(s);
      health := health - RadiationDamage * s.radiation;
      health := ClampNonNeg(health);
      var newSize := growth[|growth| - 1] + rate * health * draws[day - 1];
      assert ClampNonNeg(newSize) == NextSize(growth[|growth| - 1], rate, health, draws[day - 1]);
      growth := growth + [ClampNonNeg(newSize)];
      day := day + 1;
    }
  }
}
