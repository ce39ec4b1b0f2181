/** Unit and measurement validator: the safe physiological ranges, the unit and
    activity-level checks, and the imperial/metric conversions of
    backend/routes/macros.py. */
module Measurements {
  import opened Base

  const LB_TO_KG: real := 0.453592
  const INCH_TO_CM: real := 2.54
  const KG_TO_LB: real := 2.20462

  const MIN_WEIGHT_LB: real := 40.0
  const MAX_WEIGHT_LB: real := 700.0
  const MIN_HEIGHT_INCHES: real := 36.0
  const MAX_HEIGHT_INCHES: real := 108.0
  const MIN_AGE: int := 16
  const MAX_AGE: int := 100

  predicate WeightInRange(weightLb: real) {
    MIN_WEIGHT_LB <= weightLb <= MAX_WEIGHT_LB
  }

  predicate HeightInRange(heightIn: real) {
    MIN_HEIGHT_INCHES <= heightIn <= MAX_HEIGHT_INCHES
  }

  predicate AgeInRange(age: int) {
    MIN_AGE <= age <= MAX_AGE
  }

  /** The weight and height checks of `validate_measurements`, in their order. */
  function ValidateWeightAndHeight(weightLb: real, heightIn: real): (r: Outcome)
    ensures r.Pass? <==> WeightInRange(weightLb) && HeightInRange(heightIn)
    ensures weightLb < MIN_WEIGHT_LB ==> r == Fail(WeightBelowMinimum)
    ensures weightLb > MAX_WEIGHT_LB ==> r == Fail(WeightAboveMaximum)
    ensures WeightInRange(weightLb) && heightIn < MIN_HEIGHT_INCHES ==> r == Fail(HeightBelowMinimum)
    ensures WeightInRange(weightLb) && heightIn > MAX_HEIGHT_INCHES ==> r == Fail(HeightAboveMaximum)
  {
    if weightLb < MIN_WEIGHT_LB then Fail(WeightBelowMinimum)
    else if weightLb > MAX_WEIGHT_LB then Fail(WeightAboveMaximum)
    else if heightIn < MIN_HEIGHT_INCHES then Fail(HeightBelowMinimum)
    else if heightIn > MAX_HEIGHT_INCHES then Fail(HeightAboveMaximum)
    else Pass
  }

  /** `validate_measurements`: fails exactly when one of the three values is out of
      its inclusive range, naming the first offending field in the order weight,
      height, age. */
  function ValidateMeasurements(weightLb: real, heightIn: real, age: int): (r: Outcome)
    ensures r.Pass? <==> WeightInRange(weightLb) && HeightInRange(heightIn) && AgeInRange(age)
    ensures !WeightInRange(weightLb) || !HeightInRange(heightIn) ==>
              r == ValidateWeightAndHeight(weightLb, heightIn)
    ensures WeightInRange(weightLb) && HeightInRange(heightIn) && age < MIN_AGE ==>
              r == Fail(AgeBelowMinimum)
    ensures WeightInRange(weightLb) && HeightInRange(heightIn) && age > MAX_AGE ==>
              r == Fail(AgeAboveMaximum)
  {
    match ValidateWeightAndHeight(weightLb, heightIn)
    case Fail(e) => Fail(e)
    case Pass =>
      if age < MIN_AGE then Fail(AgeBelowMinimum)
      else if age > MAX_AGE then Fail(AgeAboveMaximum)
      else Pass
  }

  /** `validate_unit`: only 'lbs' and 'kg' are display units. */
  function ValidateUnit(unit: string): (r: Outcome)
    ensures r.Pass? <==> unit == "lbs" || unit == "kg"
    ensures r.Fail? ==> r.error == InvalidUnit
  {
    if unit !in ["lbs", "kg"] then Fail(InvalidUnit) else Pass
  }

  /** The keys of `VALID_ACTIVITY_LEVELS`. */
  const VALID_ACTIVITY_LEVELS: seq<string> := ["sedentary", "light", "moderate", "active", "very_active"]

  /** `validate_activity_level`. */
  function ValidateActivityLevel(level: string): (r: Outcome)
    ensures r.Pass? <==> level in VALID_ACTIVITY_LEVELS
    ensures r.Fail? ==> r.error == InvalidActivityLevel
  {
    if level !in VALID_ACTIVITY_LEVELS then Fail(InvalidActivityLevel) else Pass
  }

  /** The Mifflin-St Jeor activity multipliers of `calculate_theoretical_tdee`;
      `None` for a level that is not a key of the table. */
  function ActivityFactor(level: string): Option<real> {
    if level == "sedentary" then Some(1.2)
    else if level == "light" then Some(1.375)
    else if level == "moderate" then Some(1.55)
    else if level == "active" then Some(1.725)
    else if level == "very_active" then Some(1.9)
    else None
  }

  /** The multiplier table and the list of valid activity levels have the same keys,
      and every multiplier lies between 1.2 and 1.9. */
  lemma ActivityTablesAgree(level: string)
    ensures ValidateActivityLevel(level).Pass? <==> ActivityFactor(level).Some?
    ensures ActivityFactor(level).Some? ==> 1.2 <= ActivityFactor(level).value <= 1.9
  {
  }

  /** `convert_to_metric` AS WRITTEN: it validates with age 0, which is below
      `MIN_AGE`, so it rejects every input. An out-of-range weight or height is
      reported as such; otherwise the age check fails. */
  function ConvertToMetricAsWritten(weightLb: real, heightIn: real): (r: Result<(real, real)>)
    ensures r.Err?
    ensures ValidateWeightAndHeight(weightLb, heightIn).Fail? ==>
              r.error == ValidateWeightAndHeight(weightLb, heightIn).error
    ensures ValidateWeightAndHeight(weightLb, heightIn).Pass? ==> r.error == AgeBelowMinimum
  {
    match ValidateMeasurements(weightLb, heightIn, 0)
    case Fail(e) => Err(e)
    case Pass => Ok((weightLb * LB_TO_KG, heightIn * INCH_TO_CM))
  }

  /** `convert_to_imperial` AS WRITTEN: converts, then validates with age 0, so it
      too rejects every input. */
  function ConvertToImperialAsWritten(weightKg: real, heightCm: real): (r: Result<(real, real)>)
    ensures r.Err?
  {
    var weightLb := weightKg * KG_TO_LB;
    var heightIn := heightCm / INCH_TO_CM;
    match ValidateMeasurements(weightLb, heightIn, 0)
    case Fail(e) => Err(e)
    case Pass => Ok((weightLb, heightIn))
  }

  /** `convert_to_metric` as evidently intended ("Age validation not needed for
      conversion"): weight and height are validated, age is not. It succeeds
      exactly on in-range measurements, and then yields kilograms and centimetres
      that lie in the metric images of the ranges. */
  function ConvertToMetric(weightLb: real, heightIn: real): (r: Result<(real, real)>)
    ensures r.Ok? <==> WeightInRange(weightLb) && HeightInRange(heightIn)
    ensures r.Err? ==> r.error == ValidateWeightAndHeight(weightLb, heightIn).error
    ensures r.Ok? ==> 18.14368 <= r.value.0 <= 317.5144 && 91.44 <= r.value.1 <= 274.32
    ensures r.Ok? ==> r.value.0 == weightLb * LB_TO_KG && r.value.1 == heightIn * INCH_TO_CM
  {
    match ValidateWeightAndHeight(weightLb, heightIn)
    case Fail(e) => Err(e)
    case Pass => Ok((weightLb * LB_TO_KG, heightIn * INCH_TO_CM))
  }

  /** `convert_to_imperial` as evidently intended: convert, then validate weight
      and height in imperial units. */
  function ConvertToImperial(weightKg: real, heightCm: real): (r: Result<(real, real)>)
    ensures r.Ok? <==> WeightInRange(weightKg * KG_TO_LB) && HeightInRange(heightCm / INCH_TO_CM)
    ensures r.Ok? ==> r.value == (weightKg * KG_TO_LB, heightCm / INCH_TO_CM)
  {
    var weightLb := weightKg * KG_TO_LB;
    var heightIn := heightCm / INCH_TO_CM;
    match ValidateWeightAndHeight(weightLb, heightIn)
    case Fail(e) => Err(e)
    case Pass => Ok((weightLb, heightIn))
  }

  /** Metric and back. The height comes back exactly; the weight comes back scaled
      by LB_TO_KG * KG_TO_LB = 0.99999799504 (the two constants are not exact
      inverses), so within 0.0000021 of itself per pound, and the round trip fails
      exactly when that scaled weight drops below the 40 lb minimum. */
  lemma MetricRoundTrip(weightLb: real, heightIn: real)
    requires ConvertToMetric(weightLb, heightIn).Ok?
    ensures var back := ConvertToImperial(ConvertToMetric(weightLb, heightIn).value.0,
                                          ConvertToMetric(weightLb, heightIn).value.1);
            && (back.Ok? <==> weightLb * 0.99999799504 >= MIN_WEIGHT_LB)
            && (back.Ok? ==> back.value.1 == heightIn)
            && (back.Ok? ==> 0.0 <= weightLb - back.value.0 <= 0.0000021 * weightLb)
  {
    var kg := weightLb * LB_TO_KG;
    var cm := heightIn * INCH_TO_CM;
    assert kg * KG_TO_LB == weightLb * 0.99999799504;
    assert cm / INCH_TO_CM == heightIn;
  }

  /** A weight on the lower bound is accepted by the conversion to metric but
      rejected on the way back. */
  lemma MetricRoundTripFailsAtMinimumWeight()
    ensures ConvertToMetric(MIN_WEIGHT_LB, 60.0).Ok?
    ensures ConvertToImperial(ConvertToMetric(MIN_WEIGHT_LB, 60.0).value.0,
                              ConvertToMetric(MIN_WEIGHT_LB, 60.0).value.1) == Err(WeightBelowMinimum)
  {
    MetricRoundTrip(MIN_WEIGHT_LB, 60.0);
  }
}
