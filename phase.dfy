/** The diet-phase classifier (`determine_diet_phase`): ordered rules over the
    goal, the weight history and the weekly series. In order: too little data
    gives the goal's initial phase; for goals 'lose' and 'recomp', a history
    starting 90 or more days ago forces a diet break, then metabolic-adaptation
    indicators over the first and last four weekly rates force one, then a stable
    weight over the last 14 days means maintenance; otherwise the goal's active
    phase. */
module Phase {
  import opened Base
  import opened Entries
  import opened Measurements
  import opened Trend
  import opened Adaptive

  const MAX_DEFICIT_DURATION: int := 90
  const METABOLIC_ADAPTATION_THRESHOLD: real := 0.15
  const MAINTENANCE_PHASE_DURATION: int := 14
  /** A weekly rate below this (in kg, either sign) is a plateau. */
  const PLATEAU_RATE: real := 0.1
  /** Maintenance means changes below this fraction of the minimum loss target. */
  const MAINTENANCE_FRACTION: real := 0.2

  datatype DietPhase = Cut | Maintenance | DietBreak | Bulk | Deload | Recomp

  datatype Indicator = RateDecreasing | Plateau | IncreasedVariability

  /** Which rule decided; each stands for one of the source's reason strings. */
  datatype PhaseReason =
    | InitialRecomp | Initial
    | ExtendedDeficit
    | MetabolicAdaptation(indicators: seq<Indicator>)
    | WeightStable
    | ActiveRecomp | Active

  datatype PhaseDecision = PhaseDecision(phase: DietPhase, reason: PhaseReason)

  predicate InDeficitGoal(goal: string) {
    goal == "lose" || goal == "recomp"
  }

  /** The goal's own phase: recomp for 'recomp', cut for 'lose', bulk for any other goal. */
  function GoalPhase(goal: string, initial: bool): (d: PhaseDecision)
    ensures d.phase == (if goal == "recomp" then Recomp else if goal == "lose" then Cut else Bulk)
    ensures d.reason in {InitialRecomp, Initial, ActiveRecomp, Active}
    ensures initial <==> d.reason in {InitialRecomp, Initial}
  {
    if goal == "recomp" then PhaseDecision(Recomp, if initial then InitialRecomp else ActiveRecomp)
    else PhaseDecision(if goal == "lose" then Cut else Bulk, if initial then Initial else Active)
  }

  function FirstFour(weekly: seq<real>): seq<real>
    requires |weekly| >= 4
  {
    weekly[..4]
  }

  function LastFour(weekly: seq<real>): seq<real>
    requires |weekly| >= 4
  {
    weekly[|weekly| - 4..]
  }

  /** The latest two weekly rates are both below 0.1 kg in size. */
  predicate PlateauAt(weekly: seq<real>) {
    |weekly| >= 2 && Abs(weekly[|weekly| - 1]) < PLATEAU_RATE && Abs(weekly[|weekly| - 2]) < PLATEAU_RATE
  }

  function Rank(i: Indicator): int {
    match i
    case RateDecreasing => 0
    case Plateau => 1
    case IncreasedVariability => 2
  }

  /** The adaptation indicators of a series of at least four weekly rates. It fails
      when the mean of the first four is zero (the source divides by it); otherwise
      each indicator is reported exactly when its test holds, at most once and in
      the fixed order rate, plateau, variability. */
  function AdaptationIndicators(weekly: seq<real>): (r: Result<seq<Indicator>>)
    requires |weekly| >= 4
    ensures r.Err? <==> Mean(FirstFour(weekly)) == 0.0
    ensures r.Err? ==> r.error == ZeroInitialRate
    ensures r.Ok? ==>
      && (RateDecreasing in r.value <==>
            Mean(LastFour(weekly)) / Mean(FirstFour(weekly)) < 1.0 - METABOLIC_ADAPTATION_THRESHOLD)
      && (Plateau in r.value <==> PlateauAt(weekly))
      && (IncreasedVariability in r.value <==> Variance(LastFour(weekly)) > Variance(FirstFour(weekly)) * 2.0)
      && (forall i, j :: 0 <= i < j < |r.value| ==> Rank(r.value[i]) < Rank(r.value[j]))
  {
    var recentRate := Mean(LastFour(weekly));
    var initialRate := Mean(FirstFour(weekly));
    if initialRate == 0.0 then
      Err(ZeroInitialRate)
    else
      var slowing := if recentRate / initialRate < 1.0 - METABOLIC_ADAPTATION_THRESHOLD then [RateDecreasing] else [];
      var plateau := if PlateauAt(weekly) then [Plateau] else [];
      var variable := if Variance(LastFour(weekly)) > Variance(FirstFour(weekly)) * 2.0 then [IncreasedVariability] else [];
      Ok(slowing + plateau + variable)
  }

  /** `[abs(e.weight - recent[i-1].weight) * LB_TO_KG for i, e in enumerate(recent[1:], 1)]` */
  function ConsecutiveChangesKg(s: seq<WeightEntry>): (r: seq<real>)
    ensures |r| == if s == [] then 0 else |s| - 1
    ensures forall i :: 0 <= i < |r| ==> r[i] == Abs(s[i + 1].weightLb - s[i].weightLb) * LB_TO_KG
  {
    if |s| < 2 then [] else seq(|s| - 1, i requires 0 <= i < |s| - 1 => Abs(s[i + 1].weightLb - s[i].weightLb) * LB_TO_KG)
  }

  /** The maintenance test: the rate is within 20 % of the minimum loss target of
      zero, and the entries of the last 14 days are at least three with every
      consecutive change below that same threshold. */
  predicate IsMaintaining(sorted: seq<WeightEntry>, today: int, rate: real, targetMin: real) {
    var threshold := targetMin * MAINTENANCE_FRACTION;
    var recent := EntriesWithin(sorted, today, MAINTENANCE_PHASE_DURATION);
    && Abs(rate) < threshold
    && |recent| >= 3
    && AllBelow(ConsecutiveChangesKg(recent), threshold)
  }

  predicate AllBelow(s: seq<real>, bound: real) {
    forall k :: 0 <= k < |s| ==> s[k] < bound
  }

  /** The trend rules, once the extended-deficit test has passed: adaptation
      indicators (deficit goals with four or more weekly rates), then maintenance
      (deficit goals with a current rate), then the goal's active phase. */
  function TrendPhase(goal: string, intensity: Option<string>, sorted: seq<WeightEntry>, t: TrendResult, today: int)
    : (r: Result<PhaseDecision>)
    ensures r.Ok? ==> r.value.phase != Deload && r.value.reason != ExtendedDeficit
  {
    var adaptation := if InDeficitGoal(goal) && |t.weekly| >= 4 then AdaptationIndicators(t.weekly) else Ok([]);
    if adaptation.Err? then
      Err(adaptation.error)
    else if adaptation.value != [] then
      Ok(PhaseDecision(DietBreak, MetabolicAdaptation(adaptation.value)))
    else if InDeficitGoal(goal) && t.currentRate.Some? then
      if intensity.None? then
        Err(MissingIntensity)
      else if IsMaintaining(sorted, today, t.currentRate.value, LossTargetsOrModerate(intensity.value).low) then
        Ok(PhaseDecision(Maintenance, WeightStable))
      else
        Ok(GoalPhase(goal, false))
    else
      Ok(GoalPhase(goal, false))
  }

  /** The rules for a history of at least two entries, given its day-ordered copy
      and its weekly series. */
  function PhaseFromSeries(goal: string, intensity: Option<string>, sorted: seq<WeightEntry>, t: TrendResult, today: int)
    : (r: Result<PhaseDecision>)
    requires sorted != []
    ensures r == Ok(PhaseDecision(DietBreak, ExtendedDeficit)) <==>
              InDeficitGoal(goal) && today - sorted[0].day >= MAX_DEFICIT_DURATION
    ensures r.Ok? ==> r.value.phase != Deload
  {
    if InDeficitGoal(goal) && today - sorted[0].day >= MAX_DEFICIT_DURATION then
      Ok(PhaseDecision(DietBreak, ExtendedDeficit))
    else
      TrendPhase(goal, intensity, sorted, t, today)
  }

  /** `determine_diet_phase`, with `datetime.now()` as the day number `today`. It
      never chooses the deload phase. */
  function DietPhaseFor(goal: string, intensity: Option<string>, entries: seq<WeightEntry>, today: int): (r: Result<PhaseDecision>)
    ensures r.Ok? ==> r.value.phase != Deload
  {
    if |entries| < 2 then
      Ok(GoalPhase(goal, true))
    else
      PhaseFromSeries(goal, intensity, SortByDay(entries), WeeklyWeightChanges(entries), today)
  }

  /** Too little data: the goal's initial phase, whatever else holds. */
  lemma FewEntriesFollowGoal(goal: string, intensity: Option<string>, entries: seq<WeightEntry>, today: int)
    requires |entries| < 2
    ensures DietPhaseFor(goal, intensity, entries, today) == Ok(GoalPhase(goal, true))
    ensures goal == "lose" ==> DietPhaseFor(goal, intensity, entries, today).value.phase == Cut
  {
  }

  /** The extended-deficit break is taken exactly for a deficit goal with at least
      two entries one of which is 90 or more days old; it is decided before any
      trend test, so it is chosen even when those would fail. */
  lemma ExtendedDeficitIff(goal: string, intensity: Option<string>, entries: seq<WeightEntry>, today: int)
    ensures DietPhaseFor(goal, intensity, entries, today) == Ok(PhaseDecision(DietBreak, ExtendedDeficit)) <==>
      InDeficitGoal(goal) && |entries| >= 2 &&
      exists i :: 0 <= i < |entries| && today - entries[i].day >= MAX_DEFICIT_DURATION
  {
    if |entries| >= 2 {
      var sorted := SortByDay(entries);
      SortByDayFirstIsEarliest(entries);
      var first := sorted[0];
      assert (exists i :: 0 <= i < |entries| && today - entries[i].day >= MAX_DEFICIT_DURATION) <==>
             today - first.day >= MAX_DEFICIT_DURATION by {
        if today - first.day >= MAX_DEFICIT_DURATION {
          var i :| 0 <= i < |entries| && entries[i] == first;
        }
      }
    }
  }

  /** An adaptation-driven diet break needs a deficit goal and at least four weekly
      rates, and reports the (non-empty) indicators of that series. */
  lemma AdaptationBreakNeedsFourWeeks(goal: string, intensity: Option<string>, sorted: seq<WeightEntry>, t: TrendResult, today: int)
    requires TrendPhase(goal, intensity, sorted, t, today).Ok?
    requires TrendPhase(goal, intensity, sorted, t, today).value.reason.MetabolicAdaptation?
    ensures var d := TrendPhase(goal, intensity, sorted, t, today).value;
      && InDeficitGoal(goal) && |t.weekly| >= 4
      && AdaptationIndicators(t.weekly) == Ok(d.reason.indicators)
      && d.reason.indicators != [] && d.phase == DietBreak
  {
  }

  /** A diet break is always either the extended-deficit one or an adaptation one,
      and maintenance is only chosen for a stable weight. */
  lemma BreakAndMaintenanceReasons(goal: string, intensity: Option<string>, sorted: seq<WeightEntry>, t: TrendResult, today: int)
    requires sorted != []
    requires PhaseFromSeries(goal, intensity, sorted, t, today).Ok?
    ensures var d := PhaseFromSeries(goal, intensity, sorted, t, today).value;
      && (d.phase == DietBreak <==> d.reason == ExtendedDeficit || d.reason.MetabolicAdaptation?)
      && (d.phase == Maintenance <==> d.reason == WeightStable)
  {
    ghost var r := TrendPhase(goal, intensity, sorted, t, today);
    if r.Ok? {
      var g := GoalPhase(goal, false);
      assert g.phase != DietBreak && g.phase != Maintenance && g.reason != WeightStable;
    }
  }

  /** Maintenance needs a deficit goal, a current rate under 20 % of the minimum loss
      target of the intensity, and at least three entries in the last 14 days whose
      consecutive changes all stay under that threshold. */
  lemma MaintenanceNeedsStableRecentWeights(goal: string, intensity: Option<string>, sorted: seq<WeightEntry>, t: TrendResult, today: int)
    requires TrendPhase(goal, intensity, sorted, t, today) == Ok(PhaseDecision(Maintenance, WeightStable))
    ensures InDeficitGoal(goal) && intensity.Some? && t.currentRate.Some?
    ensures var threshold := LossTargetsOrModerate(intensity.value).low * MAINTENANCE_FRACTION;
      var recent := EntriesWithin(sorted, today, MAINTENANCE_PHASE_DURATION);
      && Abs(t.currentRate.value) < threshold
      && |recent| >= 3
      && forall k :: 0 <= k < |recent| - 1 ==> Abs(recent[k + 1].weightLb - recent[k].weightLb) * LB_TO_KG < threshold
  {
    var adaptation := if InDeficitGoal(goal) && |t.weekly| >= 4 then AdaptationIndicators(t.weekly) else Ok([]);
    assert adaptation.Ok? && adaptation.value == [];
    assert InDeficitGoal(goal) && t.currentRate.Some? && intensity.Some?;
    var threshold := LossTargetsOrModerate(intensity.value).low * MAINTENANCE_FRACTION;
    assert IsMaintaining(sorted, today, t.currentRate.value, LossTargetsOrModerate(intensity.value).low);
    MaintainingUnfolds(sorted, today, t.currentRate.value, LossTargetsOrModerate(intensity.value).low);
  }

  lemma MaintainingUnfolds(sorted: seq<WeightEntry>, today: int, rate: real, targetMin: real)
    requires IsMaintaining(sorted, today, rate, targetMin)
    ensures var threshold := targetMin * MAINTENANCE_FRACTION;
      var recent := EntriesWithin(sorted, today, MAINTENANCE_PHASE_DURATION);
      && Abs(rate) < threshold
      && |recent| >= 3
      && forall k :: 0 <= k < |recent| - 1 ==> Abs(recent[k + 1].weightLb - recent[k].weightLb) * LB_TO_KG < threshold
  {
    var threshold := targetMin * MAINTENANCE_FRACTION;
    var recent := EntriesWithin(sorted, today, MAINTENANCE_PHASE_DURATION);
    var changes := ConsecutiveChangesKg(recent);
    assert |changes| == |recent| - 1;
    assert AllBelow(changes, threshold);
    forall k | 0 <= k < |recent| - 1
      ensures Abs(recent[k + 1].weightLb - recent[k].weightLb) * LB_TO_KG < threshold
    {
      assert changes[k] < threshold;
    }
  }

  /** Goals other than 'lose' and 'recomp' get their goal's phase (bulk) and never a
      diet break or maintenance, and never fail. */
  lemma OtherGoalsFollowGoal(goal: string, intensity: Option<string>, entries: seq<WeightEntry>, today: int)
    requires !InDeficitGoal(goal)
    ensures DietPhaseFor(goal, intensity, entries, today) == Ok(GoalPhase(goal, |entries| < 2))
    ensures DietPhaseFor(goal, intensity, entries, today).value.phase == Bulk
  {
  }

  /** The classifier fails only for a deficit goal with at least two entries: by the
      division when the first four weekly rates average zero, or when the profile
      has no intensity. With an intensity and a non-zero initial rate (or fewer
      than four weekly rates) it always decides. */
  lemma PhaseErrors(goal: string, intensity: Option<string>, entries: seq<WeightEntry>, today: int)
    ensures var r := DietPhaseFor(goal, intensity, entries, today);
      var weekly := WeeklyWeightChanges(entries).weekly;
      && (r.Err? ==> InDeficitGoal(goal) && |entries| >= 2)
      && (r.Err? ==> (r.error == ZeroInitialRate && |weekly| >= 4 && Mean(FirstFour(weekly)) == 0.0) ||
                     (r.error == MissingIntensity && intensity.None?))
      && (intensity.Some? && (|weekly| < 4 || Mean(FirstFour(weekly)) != 0.0) ==> r.Ok?)
  {
    if |entries| >= 2 {
      var sorted := SortByDay(entries);
      SeriesPhaseErrors(goal, intensity, sorted, WeeklyWeightChanges(entries), today);
    }
  }

  lemma SeriesPhaseErrors(goal: string, intensity: Option<string>, sorted: seq<WeightEntry>, t: TrendResult, today: int)
    requires sorted != []
    ensures var r := PhaseFromSeries(goal, intensity, sorted, t, today);
      && (r.Err? ==> InDeficitGoal(goal))
      && (r.Err? ==> (r.error == ZeroInitialRate && |t.weekly| >= 4 && Mean(FirstFour(t.weekly)) == 0.0) ||
                     (r.error == MissingIntensity && intensity.None?))
      && (intensity.Some? && (|t.weekly| < 4 || Mean(FirstFour(t.weekly)) != 0.0) ==> r.Ok?)
  {
  }

  /** Within a window of fewer than 90 days (the four weeks the macro calculation
      selects) the extended-deficit break can never be chosen. */
  lemma ShortWindowNeverExtended(goal: string, intensity: Option<string>, entries: seq<WeightEntry>, today: int)
    requires forall i :: 0 <= i < |entries| ==> today - entries[i].day < MAX_DEFICIT_DURATION
    ensures DietPhaseFor(goal, intensity, entries, today) != Ok(PhaseDecision(DietBreak, ExtendedDeficit))
  {
    ExtendedDeficitIff(goal, intensity, entries, today);
  }

  /** The adaptation tests of `determine_diet_phase`, one after the other, each
      appending its indicator. */
  method DetectAdaptation(weekly: seq<real>) returns (r: Result<seq<Indicator>>)
    requires |weekly| >= 4
    ensures r == AdaptationIndicators(weekly)
  {
    var recentRate := Sum(weekly[|weekly| - 4..]) / 4.0;
    var initialRate := Sum(weekly[..4]) / 4.0;
    assert recentRate == Mean(LastFour(weekly)) && initialRate == Mean(FirstFour(weekly));
    if initialRate == 0.0 {
      return Err(ZeroInitialRate);
    }
    var indicators: seq<Indicator> := [];
    if recentRate / initialRate < 1.0 - METABOLIC_ADAPTATION_THRESHOLD {
      indicators := indicators + [RateDecreasing];
    }
    if |weekly| >= 2 && Abs(weekly[|weekly| - 1]) < PLATEAU_RATE && Abs(weekly[|weekly| - 2]) < PLATEAU_RATE {
      indicators := indicators + [Plateau];
    }
    var recentVariance := Variance(weekly[|weekly| - 4..]);
    var initialVariance := Variance(weekly[..4]);
    assert recentVariance == Variance(LastFour(weekly)) && initialVariance == Variance(FirstFour(weekly));
    if recentVariance > initialVariance * 2.0 {
      indicators := indicators + [IncreasedVariability];
    }
    assert indicators ==
      (if recentRate / initialRate < 1.0 - METABOLIC_ADAPTATION_THRESHOLD then [RateDecreasing] else []) +
      (if PlateauAt(weekly) then [Plateau] else []) +
      (if recentVariance > initialVariance * 2.0 then [IncreasedVariability] else []);
    return Ok(indicators);
  }

  /** Whether every value stays below the bound, checked one value at a time. */
  method CheckAllBelow(s: seq<real>, bound: real) returns (b: bool)
    ensures b == AllBelow(s, bound)
  {
    var k := 0;
    while k < |s|
      invariant 0 <= k <= |s|
      invariant forall j :: 0 <= j < k ==> s[j] < bound
    {
      if s[k] >= bound {
        return false;
      }
      k := k + 1;
    }
    return true;
  }

  /** The maintenance test of `determine_diet_phase`. */
  method CheckMaintaining(sorted: seq<WeightEntry>, today: int, rate: real, targetMin: real) returns (b: bool)
    ensures b == IsMaintaining(sorted, today, rate, targetMin)
  {
    var threshold := targetMin * MAINTENANCE_FRACTION;
    if Abs(rate) >= threshold {
      return false;
    }
    var recent := EntriesWithin(sorted, today, MAINTENANCE_PHASE_DURATION);
    if |recent| < 3 {
      return false;
    }
    b := CheckAllBelow(ConsecutiveChangesKg(recent), threshold);
  }

  /** `determine_diet_phase` step by step, returning at the first rule that decides. */
  method DetermineDietPhase(goal: string, intensity: Option<string>, entries: seq<WeightEntry>, today: int)
    returns (r: Result<PhaseDecision>)
    ensures r == DietPhaseFor(goal, intensity, entries, today)
  {
    if |entries| < 2 {
      if goal == "recomp" {
        return Ok(PhaseDecision(Recomp, InitialRecomp));
      }
      return Ok(PhaseDecision(if goal == "lose" then Cut else Bulk, Initial));
    }
    var sorted := SortByDay(entries);
    var t := ComputeWeeklyWeightChanges(entries);
    assert DietPhaseFor(goal, intensity, entries, today) == PhaseFromSeries(goal, intensity, sorted, t, today);
    ghost var spec := TrendPhase(goal, intensity, sorted, t, today);

    if goal == "lose" || goal == "recomp" {
      var daysInDeficit := today - sorted[0].day;
      if daysInDeficit >= MAX_DEFICIT_DURATION {
        return Ok(PhaseDecision(DietBreak, ExtendedDeficit));
      }
      if |t.weekly| >= 4 {
        var adaptation := DetectAdaptation(t.weekly);
        if adaptation.Err? {
          return Err(adaptation.error);
        }
        if adaptation.value != [] {
          return Ok(PhaseDecision(DietBreak, MetabolicAdaptation(adaptation.value)));
        }
      }
    }
    assert PhaseFromSeries(goal, intensity, sorted, t, today) == spec;

    if (goal == "lose" || goal == "recomp") && t.currentRate.Some? {
      if intensity.None? {
        return Err(MissingIntensity);
      }
      var maintaining := CheckMaintaining(sorted, today, t.currentRate.value, LossTargetsOrModerate(intensity.value).low);
      if maintaining {
        return Ok(PhaseDecision(Maintenance, WeightStable));
      }
    }

    if goal == "recomp" {
      return Ok(PhaseDecision(Recomp, ActiveRecomp));
    }
    return Ok(PhaseDecision(if goal == "lose" then Cut else Bulk, Active));
  }
}
