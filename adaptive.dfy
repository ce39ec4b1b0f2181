/** The adaptive calorie controllers (`calculate_adaptive_deficit`,
    `calculate_adaptive_surplus`): starting from a base deficit (surplus), the
    distance of the current weekly rate from the target band, relative to the
    band's edge, raises or lowers it by a proportional step that is capped, and the
    result is clamped to a safe range. */
module Adaptive {
  import opened Base
  import opened Entries
  import opened Trend

  const BASE_DEFICIT: real := 0.15
  const MAX_DEFICIT_ADJUSTMENT: real := 0.15
  const MIN_DEFICIT: real := 0.10
  const MAX_DEFICIT: real := 0.30

  const BASE_SURPLUS: real := 0.05
  const MAX_SURPLUS_ADJUSTMENT: real := 0.10
  const MIN_SURPLUS: real := 0.03
  const MAX_SURPLUS: real := 0.15

  /** A relative distance below this is a small deviation, adjusted more gently. */
  const SMALL_DEVIATION: real := 0.2

  /** A target band of weekly weight change in kg: (min_target, max_target). */
  datatype Band = Band(low: real, high: real)

  /** `WEIGHT_LOSS_TARGETS[intensity]`: weekly loss in kg. */
  function LossTargets(intensity: string): Option<Band> {
    if intensity == "moderate" then Some(Band(0.45, 0.68))
    else if intensity == "aggressive" then Some(Band(0.68, 0.91))
    else None
  }

  /** `WEIGHT_GAIN_TARGETS[intensity]`: weekly gain in kg. */
  function GainTargets(intensity: string): Option<Band> {
    if intensity == "moderate" then Some(Band(0.11, 0.23))
    else if intensity == "aggressive" then Some(Band(0.23, 0.34))
    else None
  }

  /** `.get(intensity, (0.45, 0.68))`: an unknown intensity falls back to the moderate band. */
  function LossTargetsOrModerate(intensity: string): (b: Band)
    ensures 0.0 < b.low < b.high
  {
    LossTargets(intensity).GetOr(Band(0.45, 0.68))
  }

  /** `.get(intensity, (0.11, 0.23))` */
  function GainTargetsOrModerate(intensity: string): (b: Band)
    ensures 0.0 < b.low < b.high
  {
    GainTargets(intensity).GetOr(Band(0.11, 0.23))
  }

  /** The proportional step for a relative distance: `small` per unit below 0.2,
      `large` per unit from 0.2 on. */
  function Step(distance: real, small: real, large: real): real {
    if distance < SMALL_DEVIATION then distance * small else distance * large
  }

  /** The deficit for a weekly rate (negative when losing) and a loss band. It
      stays in [0.10, 0.30]; it is the base 15 % inside the band, above it when
      the user loses less than the band's minimum, below it when the user loses
      more than the band's maximum. */
  function DeficitForRate(rate: real, band: Band): (r: real)
    requires 0.0 < band.low < band.high
    ensures MIN_DEFICIT <= r <= MAX_DEFICIT
    ensures -band.high <= rate <= -band.low ==> r == BASE_DEFICIT
    ensures rate > -band.low ==> r > BASE_DEFICIT
    ensures rate < -band.high ==> r < BASE_DEFICIT
  {
    if rate > -band.low then
      var distance := Abs((-band.low - rate) / band.low);
      assert distance > 0.0 by { DivNegative(-band.low - rate, band.low); }
      var adjustment := Min(Step(distance, 0.2, 0.3), MAX_DEFICIT_ADJUSTMENT);
      Min(BASE_DEFICIT + adjustment, MAX_DEFICIT)
    else if rate < -band.high then
      var distance := Abs((rate + band.high) / band.high);
      assert distance > 0.0 by { DivNegative(rate + band.high, band.high); }
      var adjustment := Min(Step(distance, 0.2, 0.3), MAX_DEFICIT_ADJUSTMENT);
      Max(BASE_DEFICIT - adjustment, MIN_DEFICIT)
    else
      BASE_DEFICIT
  }

  /** The surplus for a weekly rate and a gain band. It stays in [0.03, 0.15]; it
      is the base 5 % inside the band, above it when the user gains less than the
      band's minimum, below it when the user gains more than its maximum. */
  function SurplusForRate(rate: real, band: Band): (r: real)
    requires 0.0 < band.low < band.high
    ensures MIN_SURPLUS <= r <= MAX_SURPLUS
    ensures band.low <= rate <= band.high ==> r == BASE_SURPLUS
    ensures rate < band.low ==> r > BASE_SURPLUS
    ensures rate > band.high ==> r < BASE_SURPLUS
  {
    if rate < band.low then
      var distance := Abs((band.low - rate) / band.low);
      assert distance > 0.0 by { DivPositive(band.low - rate, band.low); }
      var adjustment := Min(Step(distance, 0.1, 0.15), MAX_SURPLUS_ADJUSTMENT);
      Min(BASE_SURPLUS + adjustment, MAX_SURPLUS)
    else if rate > band.high then
      var distance := Abs((rate - band.high) / band.high);
      assert distance > 0.0 by { DivPositive(rate - band.high, band.high); }
      var adjustment := Min(Step(distance, 0.1, 0.15), MAX_SURPLUS_ADJUSTMENT);
      Max(BASE_SURPLUS - adjustment, MIN_SURPLUS)
    else
      BASE_SURPLUS
  }

  lemma DivPositive(x: real, y: real)
    requires x > 0.0 && y > 0.0
    ensures x / y > 0.0
  {
  }

  lemma NegDiv(x: real, y: real)
    requires y != 0.0
    ensures (-x) / y == -(x / y)
  {
  }

  lemma DivNegative(x: real, y: real)
    requires x < 0.0 && y > 0.0
    ensures x / y < 0.0
  {
    DivPositive(-x, y);
    NegDiv(x, y);
  }

  lemma DivMono(x: real, y: real, d: real)
    requires x <= y && d > 0.0
    ensures x / d <= y / d
  {
    assert y / d - x / d == (y - x) / d;
    if x < y {
      DivPositive(y - x, d);
    }
  }

  /** Steps grow with the distance, for step sizes 0 <= small <= large. */
  lemma StepMono(d1: real, d2: real, small: real, large: real)
    requires 0.0 <= d1 <= d2 && 0.0 <= small <= large
    ensures Step(d1, small, large) <= Step(d2, small, large)
  {
    if d1 < SMALL_DEVIATION && d2 >= SMALL_DEVIATION {
      MulLeftMono(d1, d2, small);
      MulLeftMono(small, large, d2);
      assert d2 * small <= d2 * large;
    } else if d1 < SMALL_DEVIATION {
      MulLeftMono(d1, d2, small);
      assert small * d1 == d1 * small && small * d2 == d2 * small;
    } else {
      MulLeftMono(d1, d2, large);
      assert large * d1 == d1 * large && large * d2 == d2 * large;
    }
  }

  /** The faster the user loses, the smaller the deficit: the deficit never
      decreases as the rate grows. */
  lemma DeficitMonotone(rate1: real, rate2: real, band: Band)
    requires 0.0 < band.low < band.high && rate1 <= rate2
    ensures DeficitForRate(rate1, band) <= DeficitForRate(rate2, band)
  {
    if rate1 > -band.low {
      var e1 := (rate1 + band.low) / band.low;
      var e2 := (rate2 + band.low) / band.low;
      DivPositive(rate1 + band.low, band.low);
      DivMono(rate1 + band.low, rate2 + band.low, band.low);
      assert -band.low - rate1 == -(rate1 + band.low) && -band.low - rate2 == -(rate2 + band.low);
      NegDiv(rate1 + band.low, band.low);
      NegDiv(rate2 + band.low, band.low);
      StepMono(e1, e2, 0.2, 0.3);
    } else if rate2 < -band.high {
      var e1 := (-rate1 - band.high) / band.high;
      var e2 := (-rate2 - band.high) / band.high;
      DivPositive(-rate2 - band.high, band.high);
      DivMono(-rate2 - band.high, -rate1 - band.high, band.high);
      assert rate1 + band.high == -(-rate1 - band.high) && rate2 + band.high == -(-rate2 - band.high);
      NegDiv(-rate1 - band.high, band.high);
      NegDiv(-rate2 - band.high, band.high);
      StepMono(e2, e1, 0.2, 0.3);
    }
  }

  /** The faster the user gains, the smaller the surplus: the surplus never
      increases as the rate grows. */
  lemma SurplusMonotone(rate1: real, rate2: real, band: Band)
    requires 0.0 < band.low < band.high && rate1 <= rate2
    ensures SurplusForRate(rate1, band) >= SurplusForRate(rate2, band)
  {
    if rate2 < band.low {
      DivMono(band.low - rate2, band.low - rate1, band.low);
      DivPositive(band.low - rate2, band.low);
      StepMono((band.low - rate2) / band.low, (band.low - rate1) / band.low, 0.1, 0.15);
    } else if rate1 > band.high {
      DivMono(rate1 - band.high, rate2 - band.high, band.high);
      DivPositive(rate1 - band.high, band.high);
      StepMono((rate1 - band.high) / band.high, (rate2 - band.high) / band.high, 0.1, 0.15);
    }
  }

  /** `calculate_adaptive_deficit`: the base deficit without two entries or a
      current rate, the rate-driven deficit otherwise; always in [0.10, 0.30]. */
  function AdaptiveDeficit(entries: seq<WeightEntry>, intensity: string): (r: real)
    ensures MIN_DEFICIT <= r <= MAX_DEFICIT
    ensures |entries| < 2 || WeeklyWeightChanges(entries).currentRate.None? ==> r == BASE_DEFICIT
    ensures |entries| >= 2 && WeeklyWeightChanges(entries).currentRate.Some? ==>
              r == DeficitForRate(WeeklyWeightChanges(entries).currentRate.value, LossTargetsOrModerate(intensity))
  {
    if |entries| < 2 then
      BASE_DEFICIT
    else
      match WeeklyWeightChanges(entries).currentRate
      case None => BASE_DEFICIT
      case Some(rate) => DeficitForRate(rate, LossTargetsOrModerate(intensity))
  }

  /** `calculate_adaptive_surplus`: the base surplus without two entries or a
      current rate, the rate-driven surplus otherwise; always in [0.03, 0.15]. */
  function AdaptiveSurplus(entries: seq<WeightEntry>, intensity: string): (r: real)
    ensures MIN_SURPLUS <= r <= MAX_SURPLUS
    ensures |entries| < 2 || WeeklyWeightChanges(entries).currentRate.None? ==> r == BASE_SURPLUS
    ensures |entries| >= 2 && WeeklyWeightChanges(entries).currentRate.Some? ==>
              r == SurplusForRate(WeeklyWeightChanges(entries).currentRate.value, GainTargetsOrModerate(intensity))
  {
    if |entries| < 2 then
      BASE_SURPLUS
    else
      match WeeklyWeightChanges(entries).currentRate
      case None => BASE_SURPLUS
      case Some(rate) => SurplusForRate(rate, GainTargetsOrModerate(intensity))
  }

  /** A history whose entries all fall on one day gives no rate, hence the base deficit and surplus. */
  lemma SameDayHistoryGetsBase(entries: seq<WeightEntry>, intensity: string)
    requires forall i :: 0 <= i < |entries| ==> entries[i].day == entries[0].day
    ensures AdaptiveDeficit(entries, intensity) == BASE_DEFICIT
    ensures AdaptiveSurplus(entries, intensity) == BASE_SURPLUS
  {
    NoRateIff(entries);
  }
}
