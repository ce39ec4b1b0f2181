/** The macro calculation (`calculate_macros`): validate the profile, take the
    entries of the last four weeks, estimate the TDEE (theoretical, measured and
    their quality-weighted blend), classify the diet phase, turn phase and goal into
    a calorie target, check that target against a safety floor, and split it into
    protein, fat and carbohydrate ranges. */
module Macros {
  import opened Base
  import opened Entries
  import opened Measurements
  import opened Trend
  import opened Quality
  import opened Tdee
  import opened Adaptive
  import opened Phase

  const MIN_CALORIES_MALE: real := 1500.0
  const MIN_CALORIES_FEMALE: real := 1200.0
  const MIN_PROTEIN_G_PER_KG: real := 1.7
  /** The macro calculation looks at the entries of the last four weeks. */
  const HISTORY_WINDOW_DAYS: int := 28

  // ---------------------------------------------------------------------------
  // Calories

  /** `calculate_maintenance_calories`: 10 % above the TDEE during a diet break,
      the TDEE itself in every other phase. */
  function MaintenanceCalories(tdee: real, phase: DietPhase): (r: real)
    ensures phase != DietBreak ==> r == tdee
    ensures tdee > 0.0 ==> r >= tdee
    ensures phase == DietBreak ==> r - tdee == 0.1 * tdee
  {
    if phase == DietBreak then tdee * 1.1
    else tdee
  }

  /** The calorie target, given the deficit and the surplus the adaptive
      controllers choose for the history: the maintenance calories in a diet break
      or maintenance phase; otherwise the TDEE less the deficit for goal 'lose',
      plus the surplus for goal 'gain', and the TDEE itself for any other goal. */
  function TargetCalories(tdee: real, phase: DietPhase, goal: string, deficit: real, surplus: real): (r: real)
    ensures phase == DietBreak ==> r == 1.1 * tdee
    ensures phase == Maintenance ==> r == tdee
    ensures phase != DietBreak && phase != Maintenance && goal != "lose" && goal != "gain" ==> r == tdee
  {
    if phase == DietBreak || phase == Maintenance then
      MaintenanceCalories(tdee, phase)
    else if goal == "lose" then
      tdee * (1.0 - deficit)
    else if goal == "gain" then
      tdee * (1.0 + surplus)
    else
      tdee
  }

  /** In a cut or bulk phase the deficit is taken off (goal 'lose') or the
      surplus added to (goal 'gain') the TDEE, as a fraction of it. */
  lemma TargetCaloriesByGoal(tdee: real, phase: DietPhase, goal: string, deficit: real, surplus: real)
    requires phase != DietBreak && phase != Maintenance
    ensures goal == "lose" ==> TargetCalories(tdee, phase, goal, deficit, surplus) == tdee * (1.0 - deficit)
    ensures goal == "gain" ==> TargetCalories(tdee, phase, goal, deficit, surplus) == tdee * (1.0 + surplus)
  {
  }

  /** For a positive TDEE and a deficit and surplus in their clamped ranges, a cut
      is 70-90 % of the TDEE, a bulk 103-115 %, and every target (a diet break is
      110 %, maintenance and the other goals 100 %) lies between 70 % and 115 %. */
  lemma TargetCaloriesBounds(tdee: real, phase: DietPhase, goal: string, deficit: real, surplus: real)
    requires MIN_DEFICIT <= deficit <= MAX_DEFICIT && MIN_SURPLUS <= surplus <= MAX_SURPLUS
    ensures tdee > 0.0 ==> var r := TargetCalories(tdee, phase, goal, deficit, surplus);
      && (phase != DietBreak && phase != Maintenance && goal == "lose" ==> 0.7 * tdee <= r <= 0.9 * tdee)
      && (phase != DietBreak && phase != Maintenance && goal == "gain" ==> 1.03 * tdee <= r <= 1.15 * tdee)
      && 0.7 * tdee <= r <= 1.15 * tdee
  {
    if phase != DietBreak && phase != Maintenance && goal == "lose" {
      CutCaloriesWithin(tdee, phase, goal, deficit, surplus);
    } else if phase != DietBreak && phase != Maintenance && goal == "gain" {
      BulkCaloriesWithin(tdee, phase, goal, deficit, surplus);
    } else {
      PhaseCaloriesWithin(tdee, phase, goal, deficit, surplus);
    }
  }

  lemma CutCaloriesWithin(tdee: real, phase: DietPhase, goal: string, deficit: real, surplus: real)
    requires phase != DietBreak && phase != Maintenance && goal == "lose"
    requires MIN_DEFICIT <= deficit <= MAX_DEFICIT
    ensures tdee > 0.0 ==> 0.7 * tdee <= TargetCalories(tdee, phase, goal, deficit, surplus) <= 0.9 * tdee
  {
    CutWithin(tdee, deficit);
  }

  lemma BulkCaloriesWithin(tdee: real, phase: DietPhase, goal: string, deficit: real, surplus: real)
    requires phase != DietBreak && phase != Maintenance && goal == "gain"
    requires MIN_SURPLUS <= surplus <= MAX_SURPLUS
    ensures tdee > 0.0 ==> 1.03 * tdee <= TargetCalories(tdee, phase, goal, deficit, surplus) <= 1.15 * tdee
  {
    BulkWithin(tdee, surplus);
  }

  lemma PhaseCaloriesWithin(tdee: real, phase: DietPhase, goal: string, deficit: real, surplus: real)
    requires phase == DietBreak || phase == Maintenance || (goal != "lose" && goal != "gain")
    ensures phase == DietBreak ==> TargetCalories(tdee, phase, goal, deficit, surplus) == 1.1 * tdee
    ensures phase != DietBreak ==> TargetCalories(tdee, phase, goal, deficit, surplus) == tdee
    ensures tdee > 0.0 ==> var r := TargetCalories(tdee, phase, goal, deficit, surplus);
      tdee <= r <= 1.1 * tdee
  {
  }

  lemma CutWithin(tdee: real, deficit: real)
    requires MIN_DEFICIT <= deficit <= MAX_DEFICIT
    ensures tdee > 0.0 ==> 0.7 * tdee <= tdee * (1.0 - deficit) <= 0.9 * tdee
  {
    ScaleWithin(tdee, 0.7, 1.0 - deficit, 0.9);
  }

  lemma BulkWithin(tdee: real, surplus: real)
    requires MIN_SURPLUS <= surplus <= MAX_SURPLUS
    ensures tdee > 0.0 ==> 1.03 * tdee <= tdee * (1.0 + surplus) <= 1.15 * tdee
  {
    ScaleWithin(tdee, 1.03, 1.0 + surplus, 1.15);
  }

  lemma ScaleWithin(t: real, lo: real, x: real, hi: real)
    requires lo <= x <= hi
    ensures t > 0.0 ==> lo * t <= t * x <= hi * t
  {
    if t > 0.0 {
      MulLeftMono(lo, x, t);
      MulLeftMono(x, hi, t);
    }
  }

  /** A cut always eats below the TDEE, and the faster the user is already
      losing (the lower the current rate), the more calories the cut allows. */
  lemma CutCaloriesFollowRate(tdee: real, phase: DietPhase, rate1: real, rate2: real, band: Band, surplus: real)
    requires tdee > 0.0 && phase != DietBreak && phase != Maintenance
    requires 0.0 < band.low < band.high && rate1 <= rate2
    ensures TargetCalories(tdee, phase, "lose", DeficitForRate(rate1, band), surplus) < tdee
    ensures TargetCalories(tdee, phase, "lose", DeficitForRate(rate1, band), surplus) >=
            TargetCalories(tdee, phase, "lose", DeficitForRate(rate2, band), surplus)
  {
    var d1 := DeficitForRate(rate1, band);
    var d2 := DeficitForRate(rate2, band);
    DeficitMonotone(rate1, rate2, band);
    CutCaloriesAntitone(tdee, phase, d1, d2, surplus);
  }

  lemma CutCaloriesAntitone(tdee: real, phase: DietPhase, d1: real, d2: real, surplus: real)
    requires tdee > 0.0 && phase != DietBreak && phase != Maintenance
    requires MIN_DEFICIT <= d1 <= d2
    ensures TargetCalories(tdee, phase, "lose", d1, surplus) < tdee
    ensures TargetCalories(tdee, phase, "lose", d1, surplus) >= TargetCalories(tdee, phase, "lose", d2, surplus)
  {
    assert TargetCalories(tdee, phase, "lose", d1, surplus) == tdee * (1.0 - d1);
    assert TargetCalories(tdee, phase, "lose", d2, surplus) == tdee * (1.0 - d2);
    MulLeftMono(1.0 - d2, 1.0 - d1, tdee);
    MulLeftMono(1.0 - d1, 1.0 - MIN_DEFICIT, tdee);
  }

  function MinCaloriesFor(gender: string): real {
    if gender == "male" then MIN_CALORIES_MALE else MIN_CALORIES_FEMALE
  }

  /** `validate_calories`: a target below the larger of the gender's floor
      (1500 for 'male', 1200 otherwise) and the BMR is rejected, with that larger
      value reported as the safe minimum. A target that passes is at least 1200, at
      least 1500 for 'male', and at least the BMR. */
  function ValidateCalories(calories: real, bmr: real, gender: string): (r: Outcome)
    ensures r.Fail? <==> calories < Max(MinCaloriesFor(gender), bmr)
    ensures r.Fail? ==> r.error == UnsafeCalories(calories, Max(MinCaloriesFor(gender), bmr))
    ensures r.Pass? ==> calories >= bmr && calories >= MIN_CALORIES_FEMALE
    ensures r.Pass? && gender == "male" ==> calories >= MIN_CALORIES_MALE
  {
    var minSafeCalories := Max(MinCaloriesFor(gender), bmr);
    if calories < minSafeCalories then Fail(UnsafeCalories(calories, minSafeCalories)) else Pass
  }

  // ---------------------------------------------------------------------------
  // Protein, fat and carbohydrate

  /** The base protein table, in g per kg of body weight. */
  function BaseProteinTable(level: string): Option<real> {
    if level == "sedentary" then Some(Max(1.76, MIN_PROTEIN_G_PER_KG))
    else if level == "light" then Some(Max(1.98, MIN_PROTEIN_G_PER_KG))
    else if level == "moderate" then Some(Max(2.20, MIN_PROTEIN_G_PER_KG))
    else if level == "active" then Some(Max(2.42, MIN_PROTEIN_G_PER_KG))
    else if level == "very_active" then Some(Max(2.64, MIN_PROTEIN_G_PER_KG))
    else None
  }

  /** The raised protein table of goals 'lose' and 'recomp'. */
  function DeficitProteinTable(level: string): Option<real> {
    if level == "sedentary" then Some(Max(2.20, MIN_PROTEIN_G_PER_KG))
    else if level == "light" then Some(Max(2.42, MIN_PROTEIN_G_PER_KG))
    else if level == "moderate" then Some(Max(2.64, MIN_PROTEIN_G_PER_KG))
    else if level == "active" then Some(Max(2.86, MIN_PROTEIN_G_PER_KG))
    else if level == "very_active" then Some(Max(2.86, MIN_PROTEIN_G_PER_KG))
    else None
  }

  /** The protein multiplier of a goal and activity level: the goal's table entry,
      or the 1.7 g/kg minimum for a level outside the table. It is never below the
      minimum and never above 2.86 g/kg. */
  function ProteinMultiplier(goal: string, level: string): (r: real)
    ensures MIN_PROTEIN_G_PER_KG <= r <= 2.86
    ensures ValidateActivityLevel(level).Fail? ==> r == MIN_PROTEIN_G_PER_KG
  {
    var table := if goal in ["lose", "recomp"] then DeficitProteinTable(level) else BaseProteinTable(level);
    table.GetOr(MIN_PROTEIN_G_PER_KG)
  }

  /** The two tables have the same keys, and at every activity level the deficit
      table gives at least as much protein as the base table: a cut or recomp never
      lowers the protein target. */
  lemma DeficitProteinAtLeastBase(level: string, goal: string)
    ensures BaseProteinTable(level).Some? <==> DeficitProteinTable(level).Some?
    ensures BaseProteinTable(level).Some? <==> ValidateActivityLevel(level).Pass?
    ensures ProteinMultiplier("lose", level) == ProteinMultiplier("recomp", level) >= ProteinMultiplier(goal, level)
    ensures BaseProteinTable(level).Some? ==> DeficitProteinTable(level).value > BaseProteinTable(level).value
  {
  }

  /** `fat_ranges.get(goal, (0.25, 0.35))`, as fractions of the calories. */
  function FatRange(goal: string): (r: (real, real))
    ensures 0.0 < r.0 < r.1 <= 0.35
  {
    if goal == "lose" then (0.20, 0.25)
    else if goal == "gain" then (0.25, 0.35)
    else if goal == "maintain" then (0.25, 0.35)
    else (0.25, 0.35)
  }

  /** The fat table has no entry for 'recomp': a recomp gets the maintenance
      range, and only 'lose' gets the lower one. */
  lemma RecompFatFallsBack(goal: string)
    ensures FatRange("recomp") == FatRange("maintain") == FatRange("gain")
    ensures goal != "lose" ==> FatRange(goal) == FatRange("maintain")
    ensures FatRange("lose").1 <= FatRange(goal).0 || goal == "lose"
  {
  }

  /** The daily macronutrient targets in grams. */
  datatype Allocation = Allocation(proteinG: real, fatMinG: real, fatMaxG: real, carbMinG: real, carbMaxG: real)

  /** The split of a calorie target: protein is the body weight in kg times the
      multiplier; fat is the goal's fraction range of the calories at 9 kcal/g; the
      carbohydrates take what is left at 4 kcal/g, the most with the least fat and
      the least with the most. So each extreme spends exactly the calories, the fat
      range is ordered for non-negative calories, the carbohydrate range is always
      ordered, and it is 9/4 times as wide as the fat range. */
  function AllocateMacros(calories: real, weightKg: real, goal: string, level: string): (a: Allocation)
    ensures a.proteinG == weightKg * ProteinMultiplier(goal, level)
    ensures 9.0 * a.fatMinG == calories * FatRange(goal).0 && 9.0 * a.fatMaxG == calories * FatRange(goal).1
    ensures 4.0 * a.proteinG + 9.0 * a.fatMinG + 4.0 * a.carbMaxG == calories
    ensures 4.0 * a.proteinG + 9.0 * a.fatMaxG + 4.0 * a.carbMinG == calories
    ensures a.carbMaxG - a.carbMinG == (a.fatMaxG - a.fatMinG) * 9.0 / 4.0
    ensures calories >= 0.0 ==> a.fatMinG <= a.fatMaxG && a.carbMinG <= a.carbMaxG
  {
    var proteinG := weightKg * ProteinMultiplier(goal, level);
    var (minFatPercent, maxFatPercent) := FatRange(goal);
    var minFat := (calories * minFatPercent) / 9.0;
    var maxFat := (calories * maxFatPercent) / 9.0;
    var maxCarbs := (calories - proteinG * 4.0 - minFat * 9.0) / 4.0;
    var minCarbs := (calories - proteinG * 4.0 - maxFat * 9.0) / 4.0;
    ScaleWithin(calories, minFatPercent, minFatPercent, maxFatPercent);
    Allocation(proteinG, minFat, maxFat, minCarbs, maxCarbs)
  }

  /** The protein figure the response reports AS WRITTEN: the protein grams are
      multiplied by KG_TO_LB once more ("convert back to pounds") although they are
      already grams (body weight in kg times g per kg). */
  function ReportedProteinAsWritten(a: Allocation): (r: real)
    ensures a.proteinG > 0.0 ==> r > a.proteinG
    ensures a.proteinG > 0.0 ==> r - a.proteinG == 1.20462 * a.proteinG
  {
    a.proteinG * KG_TO_LB
  }

  /** As written, the reported protein exceeds the protein the carbohydrate budget
      was computed with, so the reported grams together with the reported fat and
      carbohydrates add up to more energy than the calorie target. */
  lemma ReportedProteinBreaksEnergyBalance(calories: real, weightKg: real, goal: string, level: string)
    requires weightKg > 0.0
    ensures var a := AllocateMacros(calories, weightKg, goal, level);
      && ReportedProteinAsWritten(a) > a.proteinG
      && 4.0 * ReportedProteinAsWritten(a) + 9.0 * a.fatMinG + 4.0 * a.carbMaxG > calories
  {
    var a := AllocateMacros(calories, weightKg, goal, level);
    assert a.proteinG > 0.0 by {
      MulLeftMono(0.0, ProteinMultiplier(goal, level), weightKg);
    }
    assert ReportedProteinAsWritten(a) - a.proteinG == a.proteinG * (KG_TO_LB - 1.0);
  }

  /** Concretely: 90 kg at 2.2 g/kg is 198 g of protein, reported as 436.51476 g. */
  lemma ReportedProteinExample()
    ensures AllocateMacros(2500.0, 90.0, "maintain", "moderate").proteinG == 198.0
    ensures ReportedProteinAsWritten(AllocateMacros(2500.0, 90.0, "maintain", "moderate")) == 436.51476
  {
  }

  // ---------------------------------------------------------------------------
  // Reported extras

  /** `WEIGHT_LOSS_TARGETS[intensity]` for goal 'lose', `WEIGHT_GAIN_TARGETS[intensity]`
      for every other goal, indexed without a default: an intensity other than
      'moderate' or 'aggressive' fails. */
  function TargetBand(goal: string, intensity: string): (r: Result<Band>)
    ensures r.Ok? <==> intensity == "moderate" || intensity == "aggressive"
    ensures r.Err? ==> r.error == UnknownIntensity
    ensures r.Ok? ==> r.value == (if goal == "lose" then LossTargetsOrModerate(intensity) else GainTargetsOrModerate(intensity))
  {
    var band := if goal == "lose" then LossTargets(intensity) else GainTargets(intensity);
    match band
    case None => Err(UnknownIntensity)
    case Some(b) => Ok(b)
  }

  datatype TrendLabel = Accelerating | Decelerating | Stable

  /** The trend description: accelerating for a positive trend, decelerating for a
      negative one, stable for a zero trend (zero is falsy), none without a trend. */
  function DescribeTrend(trend: Option<real>): (r: Option<TrendLabel>)
    ensures r.None? <==> trend.None?
    ensures r == Some(Accelerating) <==> trend.Some? && trend.value > 0.0
    ensures r == Some(Decelerating) <==> trend.Some? && trend.value < 0.0
    ensures r == Some(Stable) <==> trend == Some(0.0)
  {
    match trend
    case None => None
    case Some(x) => Some(if x != 0.0 && x > 0.0 then Accelerating else if x != 0.0 && x < 0.0 then Decelerating else Stable)
  }

  /** The recomp calorie range: 10 % either side of the TDEE. */
  function RecompRange(tdee: real): (r: (real, real))
    ensures tdee > 0.0 ==> r.0 < tdee < r.1
    ensures r.1 - tdee == tdee - r.0
  {
    (tdee * 0.9, tdee * 1.1)
  }

  // ---------------------------------------------------------------------------
  // The whole calculation

  /** The energy estimates: the theoretical TDEE, the measured one (if any), the
      quality of the entries and the TDEE the plan uses. */
  datatype Energy = Energy(theoretical: real, actual: Option<real>, quality: real, tdee: real)

  /** Steps 5-8 of the calculation: the measured TDEE (its errors first), the
      theoretical TDEE, the entry quality and the blend. The TDEE used lies
      between the theoretical and the measured one (it is the theoretical one when
      nothing was measured) and is positive. */
  function EstimateEnergy(p: Profile, entries: seq<WeightEntry>): (r: Result<Energy>)
    ensures r.Ok? ==> TheoreticalTdee(p).Ok? && r.value.theoretical == TheoreticalTdee(p).value
    ensures r.Ok? ==> ActualTdee(p, entries) == Ok(r.value.actual)
    ensures r.Ok? ==> 0.0 <= r.value.quality <= 1.0
    ensures r.Ok? ==> (if Truthy(r.value.actual) then Min(r.value.theoretical, r.value.actual.value) <= r.value.tdee <= Max(r.value.theoretical, r.value.actual.value)
                       else r.value.tdee == r.value.theoretical)
    ensures r.Ok? ==> r.value.tdee > 0.0
    ensures ActualTdee(p, entries).Err? ==> r == Err(ActualTdee(p, entries).error)
    ensures ActualTdee(p, entries).Ok? && TheoreticalTdee(p).Err? ==> r == Err(TheoreticalTdee(p).error)
  {
    match ActualTdee(p, entries)
    case Err(e) => Err(e)
    case Ok(actual) =>
      match TheoreticalTdee(p)
      case Err(e) => Err(e)
      case Ok(theoretical) =>
        var quality := EntryQuality(entries);
        Ok(Energy(theoretical, actual, quality, BlendTdee(theoretical, actual, quality)))
  }

  /** The response of the calculation (the figures it reports, unrounded). */
  datatype MacroPlan = MacroPlan(
    calories: real,
    bmr: real,
    energy: Energy,
    phase: PhaseDecision,
    allocation: Allocation,
    series: TrendResult,
    trendLabel: Option<TrendLabel>,
    targetBand: Band,
    recompRange: Option<(real, real)>,
    entriesUsed: nat)

  /** The entries the calculation reads: those of the last four weeks, ordered by
      day (entries of one day keep their stored order). */
  function RecentEntries(history: seq<WeightEntry>, today: int): (r: seq<WeightEntry>)
    ensures SortedByDay(r)
    ensures forall e :: e in r <==> e in history && today - e.day <= HISTORY_WINDOW_DAYS
  {
    var window := EntriesWithin(history, today, HISTORY_WINDOW_DAYS);
    SortByDaySameEntries(window);
    SortByDay(window)
  }

  /** Steps 9-16, once the profile is validated and converted and the entries are
      chosen: BMR, phase, calorie target, safety check, split and the reported
      target band. */
  function PlanFromEnergy(p: Profile, weightKg: real, heightCm: real, entries: seq<WeightEntry>, today: int, energy: Energy)
    : (r: Result<MacroPlan>)
    ensures r.Ok? ==> r.value.calories >= Max(MinCaloriesFor(p.gender), r.value.bmr)
    ensures r.Ok? ==> r.value.bmr == Bmr(weightKg, heightCm, p.age, p.gender) && r.value.energy == energy
    ensures r.Ok? ==> DietPhaseFor(p.goal, p.intensity, entries, today) == Ok(r.value.phase)
    ensures r.Ok? ==> r.value.allocation == AllocateMacros(r.value.calories, weightKg, p.goal, p.activityLevel)
    ensures r.Ok? && energy.tdee > 0.0 ==> 0.7 * energy.tdee <= r.value.calories <= 1.15 * energy.tdee
    ensures DietPhaseFor(p.goal, p.intensity, entries, today).Err? ==> r == Err(DietPhaseFor(p.goal, p.intensity, entries, today).error)
    ensures r.Ok? ==>
      r.value.calories == TargetCalories(energy.tdee, r.value.phase.phase, p.goal,
                                         AdaptiveDeficit(entries, Intensity(p)), AdaptiveSurplus(entries, Intensity(p)))
    ensures DietPhaseFor(p.goal, p.intensity, entries, today).Ok? ==>
      var target := TargetCalories(energy.tdee, DietPhaseFor(p.goal, p.intensity, entries, today).value.phase, p.goal,
                                   AdaptiveDeficit(entries, Intensity(p)), AdaptiveSurplus(entries, Intensity(p)));
      var floor := Max(MinCaloriesFor(p.gender), Bmr(weightKg, heightCm, p.age, p.gender));
      && (target < floor ==> r == Err(UnsafeCalories(target, floor)))
      && (target >= floor && TargetBand(p.goal, Intensity(p)).Err? ==> r == Err(UnknownIntensity))
      && (target >= floor && TargetBand(p.goal, Intensity(p)).Ok? ==> r.Ok?)
  {
    var bmr := Bmr(weightKg, heightCm, p.age, p.gender);
    var intensity := Intensity(p);
    match DietPhaseFor(p.goal, p.intensity, entries, today)
    case Err(e) => Err(e)
    case Ok(phase) =>
      var deficit := AdaptiveDeficit(entries, intensity);
      var surplus := AdaptiveSurplus(entries, intensity);
      var calories := TargetCalories(energy.tdee, phase.phase, p.goal, deficit, surplus);
      TargetCaloriesBounds(energy.tdee, phase.phase, p.goal, deficit, surplus);
      match ValidateCalories(calories, bmr, p.gender)
      case Fail(e) => Err(e)
      case Pass =>
        var allocation := AllocateMacros(calories, weightKg, p.goal, p.activityLevel);
        var series := WeeklyWeightChanges(entries);
        match TargetBand(p.goal, intensity)
        case Err(e) => Err(e)
        case Ok(band) =>
          Ok(MacroPlan(calories, bmr, energy, phase, allocation, series, DescribeTrend(series.trend), band,
                       if p.goal == "recomp" then Some(RecompRange(energy.tdee)) else None, |entries|))
  }

  /** `calculate_macros` with the conversion as evidently intended (weight and
      height validated, not age), `now` as the day number `today` and `history`
      standing for every stored entry of the user. It fails on an invalid display
      unit, then on an invalid activity level, then on out-of-range measurements.
      A plan it returns meets the calorie floor (at least 1200 kcal, 1500 for
      'male', and at least a positive BMR), stays within 70-115 % of a TDEE that
      lies between the theoretical and measured ones, spends its calories exactly
      on the macronutrient split, and never prescribes a deload or an
      extended-deficit break (four weeks of data are too short for one). */
  function PlanFor(p: Profile, history: seq<WeightEntry>, today: int): (r: Result<MacroPlan>)
    ensures ValidateUnit(PreferredUnit(p)).Fail? ==> r == Err(InvalidUnit)
    ensures ValidateUnit(PreferredUnit(p)).Pass? && ValidateActivityLevel(p.activityLevel).Fail? ==> r == Err(InvalidActivityLevel)
    ensures (ValidateUnit(PreferredUnit(p)).Pass? && ValidateActivityLevel(p.activityLevel).Pass? &&
            ValidateWeightAndHeight(p.weightLb, p.heightIn).Fail?) ==> r == Err(ValidateWeightAndHeight(p.weightLb, p.heightIn).error)
    ensures r.Ok? ==> ValidateMeasurements(p.weightLb, p.heightIn, p.age).Pass?
    ensures r.Ok? ==> r.value.bmr == ProfileBmr(p) > 0.0
    ensures r.Ok? ==> r.value.calories >= Max(MinCaloriesFor(p.gender), r.value.bmr)
    ensures r.Ok? ==> r.value.energy.theoretical == TheoreticalTdee(p).value
    ensures r.Ok? ==> EstimateEnergy(p, RecentEntries(history, today)) == Ok(r.value.energy)
    ensures r.Ok? ==> DietPhaseFor(p.goal, p.intensity, RecentEntries(history, today), today) == Ok(r.value.phase)
    ensures r.Ok? ==>
      r.value.calories == TargetCalories(r.value.energy.tdee, r.value.phase.phase, p.goal,
                                         AdaptiveDeficit(RecentEntries(history, today), Intensity(p)),
                                         AdaptiveSurplus(RecentEntries(history, today), Intensity(p)))
    ensures r.Ok? ==> 0.7 * r.value.energy.tdee <= r.value.calories <= 1.15 * r.value.energy.tdee
    ensures r.Ok? ==> r.value.phase.phase != Deload && r.value.phase.reason != ExtendedDeficit
    ensures r.Ok? ==> var a := r.value.allocation;
      && 4.0 * a.proteinG + 9.0 * a.fatMinG + 4.0 * a.carbMaxG == r.value.calories
      && 4.0 * a.proteinG + 9.0 * a.fatMaxG + 4.0 * a.carbMinG == r.value.calories
      && a.fatMinG <= a.fatMaxG && a.carbMinG <= a.carbMaxG
      && a.proteinG >= MIN_PROTEIN_G_PER_KG * p.weightLb * LB_TO_KG
  {
    match ValidateUnit(PreferredUnit(p))
    case Fail(e) => Err(e)
    case Pass =>
      match ValidateActivityLevel(p.activityLevel)
      case Fail(e) => Err(e)
      case Pass =>
        match ConvertToMetric(p.weightLb, p.heightIn)
        case Err(e) => Err(e)
        case Ok((weightKg, heightCm)) =>
          var entries := RecentEntries(history, today);
          match EstimateEnergy(p, entries)
          case Err(e) => Err(e)
          case Ok(energy) =>
            var r := PlanFromEnergy(p, weightKg, heightCm, entries, today, energy);
            if r.Ok? then
              PlanProperties(p, weightKg, entries, today, r.value);
              r
            else r
  }

  /** What PlanFor promises of a plan built from validated inputs. */
  lemma PlanProperties(p: Profile, weightKg: real, entries: seq<WeightEntry>, today: int, m: MacroPlan)
    requires weightKg == p.weightLb * LB_TO_KG && WeightInRange(p.weightLb)
    requires forall e :: e in entries ==> today - e.day <= HISTORY_WINDOW_DAYS
    requires DietPhaseFor(p.goal, p.intensity, entries, today) == Ok(m.phase)
    requires m.allocation == AllocateMacros(m.calories, weightKg, p.goal, p.activityLevel)
    requires m.calories >= 0.0
    ensures m.phase.phase != Deload && m.phase.reason != ExtendedDeficit
    ensures m.allocation.fatMinG <= m.allocation.fatMaxG && m.allocation.carbMinG <= m.allocation.carbMaxG
    ensures m.allocation.proteinG >= MIN_PROTEIN_G_PER_KG * p.weightLb * LB_TO_KG
  {
    forall i | 0 <= i < |entries| ensures today - entries[i].day < MAX_DEFICIT_DURATION {
      assert entries[i] in entries;
    }
    ShortWindowNeverExtended(p.goal, p.intensity, entries, today);
    assert weightKg > 0.0;
    MulLeftMono(MIN_PROTEIN_G_PER_KG, ProteinMultiplier(p.goal, p.activityLevel), weightKg);
  }

  /** `calculate_macros` AS WRITTEN: the conversion validates with age 0, so every
      profile that passes the unit and activity checks fails there, and no plan is
      ever returned. */
  function PlanForAsWritten(p: Profile, history: seq<WeightEntry>, today: int): (r: Result<MacroPlan>)
    ensures r.Err?
    ensures (ValidateUnit(PreferredUnit(p)).Pass? && ValidateActivityLevel(p.activityLevel).Pass? &&
            ValidateWeightAndHeight(p.weightLb, p.heightIn).Pass?) ==> r == Err(AgeBelowMinimum)
  {
    match ValidateUnit(PreferredUnit(p))
    case Fail(e) => Err(e)
    case Pass =>
      match ValidateActivityLevel(p.activityLevel)
      case Fail(e) => Err(e)
      case Pass =>
        match ConvertToMetricAsWritten(p.weightLb, p.heightIn)
        case Err(e) => Err(e)
        case Ok((weightKg, heightCm)) =>
          var entries := RecentEntries(history, today);
          match EstimateEnergy(p, entries)
          case Err(e) => Err(e)
          case Ok(energy) => PlanFromEnergy(p, weightKg, heightCm, entries, today, energy)
  }

  /** A 198.4 lb, 70.1 in, 30-year-old man, moderately active, losing weight at
      the default intensity with no weight history: BMR 1867.764028, TDEE
      2895.0342434 (factor 1.55), the base 15 % deficit, so 2460.77910689 kcal in a
      cut, with 2.64 g/kg of protein and 20-25 % of the calories from fat. */
  lemma ExamplePlan()
    ensures var p := Profile(198.4, 70.1, 30, "male", "moderate", "lose", None, None);
      var r := PlanFor(p, [], 0);
      && r.Ok?
      && r.value.bmr == 1867.764028
      && r.value.energy.tdee == 2895.0342434
      && r.value.calories == 2460.77910689
      && r.value.phase == PhaseDecision(Cut, Initial)
      && r.value.allocation.proteinG == 237.580603392
      && r.value.allocation.carbMaxG == 254.575217986
  {
    var p := Profile(198.4, 70.1, 30, "male", "moderate", "lose", None, None);
    assert RecentEntries([], 0) == [];
    assert ConvertToMetric(p.weightLb, p.heightIn) == Ok((89.9926528, 178.054));
    assert TheoreticalTdee(p) == Ok(2895.0342434);
    assert EstimateEnergy(p, []) == Ok(Energy(2895.0342434, None, 0.0, 2895.0342434));
  }

  /** The same profile aged 15 is rejected by the age check of the theoretical TDEE. */
  lemma UnderageProfileRejected()
    ensures PlanFor(Profile(198.4, 70.1, 15, "male", "moderate", "lose", None, None), [], 0) == Err(AgeBelowMinimum)
  {
    var p := Profile(198.4, 70.1, 15, "male", "moderate", "lose", None, None);
    assert RecentEntries([], 0) == [];
    assert TheoreticalTdee(p) == Err(AgeBelowMinimum);
  }

  /** `calculate_macros` step by step: each stage runs in the source's order and
      the first failure is returned; the weekly series and the diet phase are
      computed by their own step-by-step methods. */
  method CalculateMacros(p: Profile, history: seq<WeightEntry>, today: int) returns (r: Result<MacroPlan>)
    ensures r == PlanFor(p, history, today)
  {
    var preferredUnit := PreferredUnit(p);
    var unitCheck := ValidateUnit(preferredUnit);
    if unitCheck.Fail? {
      return Err(unitCheck.error);
    }
    var levelCheck := ValidateActivityLevel(p.activityLevel);
    if levelCheck.Fail? {
      return Err(levelCheck.error);
    }
    var metric := ConvertToMetric(p.weightLb, p.heightIn);
    if metric.Err? {
      return Err(metric.error);
    }
    var (weightKg, heightCm) := metric.value;
    var entries := RecentEntries(history, today);
    var series := ComputeWeeklyWeightChanges(entries);

    var actual := ActualTdee(p, entries);
    if actual.Err? {
      return Err(actual.error);
    }
    var theoretical := TheoreticalTdee(p);
    if theoretical.Err? {
      return Err(theoretical.error);
    }
    var quality := EntryQuality(entries);
    var tdee := BlendTdee(theoretical.value, actual.value, quality);
    var energy := Energy(theoretical.value, actual.value, quality, tdee);
    assert EstimateEnergy(p, entries) == Ok(energy);

    var bmr := Bmr(weightKg, heightCm, p.age, p.gender);
    var intensity := Intensity(p);
    var phase := DetermineDietPhase(p.goal, p.intensity, entries, today);
    if phase.Err? {
      return Err(phase.error);
    }
    var deficit := AdaptiveDeficit(entries, intensity);
    var surplus := AdaptiveSurplus(entries, intensity);
    var calories := TargetCalories(tdee, phase.value.phase, p.goal, deficit, surplus);
    var calorieCheck := ValidateCalories(calories, bmr, p.gender);
    if calorieCheck.Fail? {
      return Err(calorieCheck.error);
    }
    var allocation := AllocateMacros(calories, weightKg, p.goal, p.activityLevel);
    var band := TargetBand(p.goal, intensity);
    if band.Err? {
      return Err(band.error);
    }
    var recomp := if p.goal == "recomp" then Some(RecompRange(tdee)) else None;
    r := Ok(MacroPlan(calories, bmr, energy, phase.value, allocation, series, DescribeTrend(series.trend),
                      band.value, recomp, |entries|));
    assert r == PlanFromEnergy(p, weightKg, heightCm, entries, today, energy);
  }
}
