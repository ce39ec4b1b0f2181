/** Energy expenditure: the Mifflin-St Jeor BMR, the theoretical TDEE (BMR times an
    activity factor), the measured ("actual") TDEE inferred from the weight change
    over the history and clamped to within 30 % of the theoretical one, and the
    blend of the two that the macro calculation uses. */
module Tdee {
  import opened Base
  import opened Entries
  import opened Measurements

  /** Kilocalories per kilogram of body-weight change. */
  const CALORIE_ADJUSTMENT_FACTOR: real := 7700.0
  /** The actual TDEE may differ from the theoretical one by at most this fraction of it. */
  const MAX_TDEE_DIFFERENCE: real := 0.3
  /** Assumed deficit (goal 'lose') and surplus (goal 'gain') of the current intake. */
  const ASSUMED_DEFICIT: real := 0.15
  const ASSUMED_SURPLUS: real := 0.05
  /** Below this entry quality the measured TDEE is blended with the theoretical one. */
  const QUALITY_THRESHOLD: real := 0.7

  /** Mifflin-St Jeor: 10 kg + 6.25 cm - 5 age, plus 5 for 'male' and minus 161 for
      any other gender value. */
  function Bmr(weightKg: real, heightCm: real, age: int, gender: string): real {
    10.0 * weightKg + 6.25 * heightCm - 5.0 * age as real + (if gender == "male" then 5.0 else -161.0)
  }

  /** 'male' makes a BMR exactly 166 kcal higher than any other gender value; the
      BMR grows with weight and height and falls with age. */
  lemma BmrShape(kg: real, cm: real, age: int, gender: string, kg2: real, cm2: real, age2: int)
    ensures gender != "male" ==> Bmr(kg, cm, age, "male") - Bmr(kg, cm, age, gender) == 166.0
    ensures kg <= kg2 && cm <= cm2 && age >= age2 ==> Bmr(kg, cm, age, gender) <= Bmr(kg2, cm2, age2, gender)
  {
  }

  /** The BMR of a profile, computed on its metric measurements. */
  function ProfileBmr(p: Profile): real {
    Bmr(p.weightLb * LB_TO_KG, p.heightIn * INCH_TO_CM, p.age, p.gender)
  }

  /** On the validated ranges the BMR is at least 91.9368 (40 lb, 36 in, age 100,
      not male), so the source's `bmr <= 0` error cannot occur after validation. */
  lemma ValidProfileBmrPositive(p: Profile)
    requires ValidateMeasurements(p.weightLb, p.heightIn, p.age).Pass?
    ensures ProfileBmr(p) >= 91.9368
  {
    MulLeftMono(MIN_WEIGHT_LB, p.weightLb, LB_TO_KG);
    MulLeftMono(MIN_HEIGHT_INCHES, p.heightIn, INCH_TO_CM);
  }

  /** The arithmetic after conversion of `calculate_theoretical_tdee`: it fails on a
      non-positive BMR or an unknown activity level (in that order); otherwise the
      TDEE is the BMR scaled by a factor in [1.2, 1.9], so strictly above a positive BMR. */
  function TdeeFromBmr(bmr: real, activityLevel: string): (r: Result<real>)
    ensures r.Ok? <==> bmr > 0.0 && ActivityFactor(activityLevel).Some?
    ensures bmr <= 0.0 ==> r == Err(NonPositiveBmr)
    ensures bmr > 0.0 && ActivityFactor(activityLevel).None? ==> r == Err(InvalidActivityLevel)
    ensures r.Ok? ==> r.value == bmr * ActivityFactor(activityLevel).value
    ensures r.Ok? ==> 1.2 * bmr <= r.value <= 1.9 * bmr && r.value > bmr > 0.0
  {
    if bmr <= 0.0 then
      Err(NonPositiveBmr)
    else
      ActivityTablesAgree(activityLevel);
      match ActivityFactor(activityLevel)
      case None => Err(InvalidActivityLevel)
      case Some(factor) =>
        MulLeftMono(1.2, factor, bmr);
        MulLeftMono(factor, 1.9, bmr);
        var tdee := bmr * factor;
        if tdee <= 0.0 then Err(NonPositiveTdee) else Ok(tdee)
  }

  /** `calculate_theoretical_tdee` AS WRITTEN: after validating the profile it calls
      `convert_to_metric`, which rejects every input, so it always fails; with valid
      measurements the failure is the conversion's age check. */
  function TheoreticalTdeeAsWritten(p: Profile): (r: Result<real>)
    ensures r.Err?
    ensures ValidateMeasurements(p.weightLb, p.heightIn, p.age).Fail? ==>
              r.error == ValidateMeasurements(p.weightLb, p.heightIn, p.age).error
    ensures ValidateMeasurements(p.weightLb, p.heightIn, p.age).Pass? ==> r.error == AgeBelowMinimum
  {
    match ValidateMeasurements(p.weightLb, p.heightIn, p.age)
    case Fail(e) => Err(e)
    case Pass =>
      match ConvertToMetricAsWritten(p.weightLb, p.heightIn)
      case Err(e) => Err(e)
      case Ok((kg, cm)) => TdeeFromBmr(Bmr(kg, cm, p.age, p.gender), p.activityLevel)
  }

  /** `calculate_theoretical_tdee` with the conversion as intended: it succeeds
      exactly on valid measurements and a known activity level, reports the first
      failed measurement check otherwise, and any TDEE it returns lies between 1.2
      and 1.9 times the profile's (positive) BMR. */
  function TheoreticalTdee(p: Profile): (r: Result<real>)
    ensures r.Ok? <==> ValidateMeasurements(p.weightLb, p.heightIn, p.age).Pass? && ActivityFactor(p.activityLevel).Some?
    ensures ValidateMeasurements(p.weightLb, p.heightIn, p.age).Fail? ==>
              r == Err(ValidateMeasurements(p.weightLb, p.heightIn, p.age).error)
    ensures ValidateMeasurements(p.weightLb, p.heightIn, p.age).Pass? && ActivityFactor(p.activityLevel).None? ==>
              r == Err(InvalidActivityLevel)
    ensures r.Ok? ==> 0.0 < ProfileBmr(p) < r.value && 1.2 * ProfileBmr(p) <= r.value <= 1.9 * ProfileBmr(p)
  {
    match ValidateMeasurements(p.weightLb, p.heightIn, p.age)
    case Fail(e) => Err(e)
    case Pass =>
      ValidProfileBmrPositive(p);
      match ConvertToMetric(p.weightLb, p.heightIn)
      case Err(e) => Err(e)
      case Ok((kg, cm)) => TdeeFromBmr(Bmr(kg, cm, p.age, p.gender), p.activityLevel)
  }

  /** The intake assumed while the weights were recorded: a 15 % deficit for goal
      'lose', a 5 % surplus for goal 'gain', the TDEE itself otherwise. */
  function AssumedIntake(theoretical: real, goal: string): real {
    if goal == "lose" then theoretical * (1.0 - ASSUMED_DEFICIT)
    else if goal == "gain" then theoretical * (1.0 + ASSUMED_SURPLUS)
    else theoretical
  }

  /** The arithmetic of `calculate_actual_tdee` once the weekly change is known: the
      assumed intake minus the daily energy the weight change accounts for, which
      must be positive, then capped to within 30 % of the theoretical TDEE. For a
      positive theoretical TDEE the result is the point of [0.7 t, 1.3 t] nearest
      the uncapped value. */
  function ActualFromWeeklyChange(theoretical: real, goal: string, weeklyChangeKg: real): (r: Result<real>)
    ensures var raw := AssumedIntake(theoretical, goal) - weeklyChangeKg * CALORIE_ADJUSTMENT_FACTOR / 7.0;
      && (r.Err? <==> raw <= 0.0)
      && (r.Err? ==> r.error == NonPositiveActualTdee)
      && (r.Ok? && theoretical > 0.0 ==> r.value == Max(0.7 * theoretical, Min(raw, 1.3 * theoretical)))
    ensures r.Ok? && theoretical > 0.0 ==>
              Abs(r.value - theoretical) <= MAX_TDEE_DIFFERENCE * theoretical && r.value > 0.0
  {
    var calorieAdjustment := weeklyChangeKg * CALORIE_ADJUSTMENT_FACTOR / 7.0;
    var currentCalories := AssumedIntake(theoretical, goal);
    var actual := currentCalories - calorieAdjustment;
    if actual <= 0.0 then
      Err(NonPositiveActualTdee)
    else
      var maxDifference := theoretical * MAX_TDEE_DIFFERENCE;
      if Abs(actual - theoretical) > maxDifference then
        if actual > theoretical then Ok(theoretical + maxDifference) else Ok(theoretical - maxDifference)
      else
        Ok(actual)
  }

  /** Losing weight means expending more than the intake: at fixed goal and
      theoretical TDEE, a smaller (more negative) weekly change never gives a
      lower actual TDEE. */
  lemma ActualTdeeAntitoneInChange(theoretical: real, goal: string, change1: real, change2: real)
    requires theoretical > 0.0 && change1 <= change2
    requires ActualFromWeeklyChange(theoretical, goal, change2).Ok?
    ensures ActualFromWeeklyChange(theoretical, goal, change1).Ok?
    ensures ActualFromWeeklyChange(theoretical, goal, change1).value >= ActualFromWeeklyChange(theoretical, goal, change2).value
  {
    MulLeftMono(change1, change2, CALORIE_ADJUSTMENT_FACTOR / 7.0);
    assert change1 * CALORIE_ADJUSTMENT_FACTOR / 7.0 == change1 * (CALORIE_ADJUSTMENT_FACTOR / 7.0);
    assert change2 * CALORIE_ADJUSTMENT_FACTOR / 7.0 == change2 * (CALORIE_ADJUSTMENT_FACTOR / 7.0);
  }

  /** With the intake assumed equal to the TDEE (goals other than 'lose' and
      'gain'), a loss means a measured TDEE above the theoretical one, a gain one
      below it, and a stable weight the theoretical TDEE itself. */
  lemma ActualTdeeDirectionAtMaintenance(theoretical: real, goal: string, change: real)
    requires theoretical > 0.0 && goal != "lose" && goal != "gain"
    requires ActualFromWeeklyChange(theoretical, goal, change).Ok?
    ensures change < 0.0 ==> ActualFromWeeklyChange(theoretical, goal, change).value > theoretical
    ensures change > 0.0 ==> ActualFromWeeklyChange(theoretical, goal, change).value < theoretical
    ensures change == 0.0 ==> ActualFromWeeklyChange(theoretical, goal, change).value == theoretical
  {
  }

  /** `calculate_actual_tdee` AS WRITTEN: with two or more entries it validates the
      first entry's weight with age 0, which always fails. */
  function ActualTdeeAsWritten(p: Profile, entries: seq<WeightEntry>): (r: Result<Option<real>>)
    ensures r.Err? <==> |entries| >= 2
    ensures r.Ok? ==> r.value == None
  {
    if |entries| < 2 then
      Ok(None)
    else
      var first := entries[0];
      var last := entries[|entries| - 1];
      match ValidateMeasurements(first.weightLb, p.heightIn, 0)
      case Fail(e) => Err(e)
      case Pass =>
        match ValidateMeasurements(last.weightLb, p.heightIn, 0)
        case Fail(e) => Err(e)
        case Pass => Ok(None)
  }

  /** The span of the history from its first to its last entry, in weeks. */
  function SpanWeeks(entries: seq<WeightEntry>): real
    requires entries != []
  {
    (entries[|entries| - 1].day - entries[0].day) as real / 7.0
  }

  /** `calculate_actual_tdee` with the validations as intended (weight and height
      only). It is absent with fewer than two entries or a first-to-last span under
      14 days (then nothing is validated or computed beyond the two weights); it
      fails when a weight, the height, the theoretical TDEE or the actual TDEE is
      invalid; and a present value lies within 30 % of the theoretical TDEE. */
  function ActualTdee(p: Profile, entries: seq<WeightEntry>): (r: Result<Option<real>>)
    ensures |entries| < 2 ==> r == Ok(None)
    ensures |entries| >= 2 ==>
      var first := entries[0];
      var last := entries[|entries| - 1];
      && (ValidateWeightAndHeight(first.weightLb, p.heightIn).Fail? ==>
            r == Err(ValidateWeightAndHeight(first.weightLb, p.heightIn).error))
      && (ValidateWeightAndHeight(first.weightLb, p.heightIn).Pass? &&
          ValidateWeightAndHeight(last.weightLb, p.heightIn).Fail? ==>
            r == Err(ValidateWeightAndHeight(last.weightLb, p.heightIn).error))
      && (WeightInRange(first.weightLb) && WeightInRange(last.weightLb) && HeightInRange(p.heightIn) ==>
            (r == Ok(None) <==> last.day - first.day < 14))
    ensures r.Ok? && r.value.Some? ==>
              TheoreticalTdee(p).Ok? &&
              Abs(r.value.value - TheoreticalTdee(p).value) <= MAX_TDEE_DIFFERENCE * TheoreticalTdee(p).value &&
              r.value.value > 0.0
  {
    if |entries| < 2 then
      Ok(None)
    else
      var first := entries[0];
      var last := entries[|entries| - 1];
      match ValidateWeightAndHeight(first.weightLb, p.heightIn)
      case Fail(e) => Err(e)
      case Pass =>
        match ValidateWeightAndHeight(last.weightLb, p.heightIn)
        case Fail(e) => Err(e)
        case Pass =>
          var weeks := SpanWeeks(entries);
          if weeks < 2.0 then
            Ok(None)
          else
            var weightChangeKg := last.weightLb * LB_TO_KG - first.weightLb * LB_TO_KG;
            var weeklyChangeKg := weightChangeKg / weeks;
            match TheoreticalTdee(p)
            case Err(e) => Err(e)
            case Ok(theoretical) =>
              match ActualFromWeeklyChange(theoretical, p.goal, weeklyChangeKg)
              case Err(e) => Err(e)
              case Ok(actual) => Ok(Some(actual))
  }

  /** Python truthiness of the optional actual TDEE: present and non-zero. */
  predicate Truthy(actual: Option<real>) {
    actual.Some? && actual.value != 0.0
  }

  /** The TDEE the plan uses: the measured one when present (blended 30/70 with the
      theoretical one when the data quality is below 0.7), the theoretical one
      otherwise. It always lies between the two. */
  function BlendTdee(theoretical: real, actual: Option<real>, quality: real): (r: real)
    ensures !Truthy(actual) ==> r == theoretical
    ensures Truthy(actual) && quality >= QUALITY_THRESHOLD ==> r == actual.value
    ensures actual.Some? ==> Min(theoretical, actual.value) <= r <= Max(theoretical, actual.value)
  {
    if Truthy(actual) && quality < QUALITY_THRESHOLD then
      theoretical * 0.7 + actual.value * 0.3
    else if Truthy(actual) then
      actual.value
    else
      theoretical
  }
}
