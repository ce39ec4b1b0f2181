# Adaptive nutrition engine — a verified Dafny model

This project models the calculation core of the macro-planning backend in
`backend/routes/macros.py`. Its inputs are a user profile (weight in pounds,
height in inches, age, gender, activity level, goal, optional intensity and
preferred unit) and a history of `(day, weight in lb)` entries. From these the
engine:

- validates the measurements, the unit and the activity level;
- computes the Mifflin-St Jeor BMR and the theoretical TDEE;
- infers an "actual" TDEE from the weight trend and clamps it to within 30 % of
  the theoretical one;
- scores the data quality and uses the score to blend the two TDEEs;
- builds a series of weekly weight-change rates and an exponentially weighted
  current rate;
- runs proportional deficit and surplus controllers, clamped to safe ranges;
- classifies the diet phase with ordered rules;
- maps the phase to a calorie target, applies a safety floor, and splits the
  calories into protein, fat and carbohydrate ranges;
- guards new weight entries against large jumps, asking for confirmation.

Modules, one per concern, in dependency order:

| file | module | contents |
|---|---|---|
| base.dfy | Base | Option, Result, Outcome, the error kinds, Abs/Min/Max, sums, mean, variance |
| entries.dfy | Entries | weight entries, the profile, a stable sort by day, the date-window filter |
| measurements.dfy | Measurements | range validators, unit and activity-level checks, lb/in ↔ kg/cm conversions |
| trend.dfy | Trend | daily changes, grouping into periods, weekly series, decay weights, current rate, trend |
| quality.dfy | Quality | the data-quality score |
| tdee.dfy | Tdee | BMR, theoretical TDEE, actual TDEE, the blend |
| adaptive.dfy | Adaptive | adaptive deficit and surplus |
| phase.dfy | Phase | the diet-phase classifier |
| macros.dfy | Macros | calories, safety gate, macro allocation, the assembled plan |
| guard.dfy | Guard | the large-jump entry guard and the confirm-or-accept decision |

Arithmetic is on `real`. Raised `ValidationError`s become `Err` values of
`Base.Error`. Days are integers, and the current day `today` is a parameter.
The pure parts of the source are functions. The loops of
`calculate_weekly_weight_changes` and `determine_diet_phase`, and the stepwise
assembly in `calculate_macros`, are methods. Each method is proved equal to the
function that specifies it.

Some functions of the source fail on every input (see "## Findings"). Each of
them appears twice in the model: once as written (`…AsWritten`, with a lemma
that it always fails) and once as evidently intended (the plain name). The rest
of the model uses the intended form, so its properties are not vacuous.

Where the weekly-change code and its design description differ, the model
follows the code:

- A period may span 1 to 6 days. The `>= 6` test starts a new period six days
  after the previous start.
- The current rate is absent exactly when there are no daily changes. This is
  the case with fewer than two entries, or when all entries fall on one day.
  The rate is not absent merely because there are fewer than two changes.

`calculate_macros` only reads the last four weeks of entries. Combined with the
90-day rule, this makes the phase reason "Extended deficit period" unreachable
from `calculate_macros` (`Phase.ShortWindowNeverExtended`), although
`determine_diet_phase` produces it on longer histories
(`Phase.ExtendedDeficitIff`).

## Model

| member | source | states |
|---|---|---|
| Measurements.ValidateWeightAndHeight | backend/routes/macros.py:116-136 | passes iff the weight is in [40, 700] lb and the height in [36, 108] in; weight is checked before height, and each limit fails with its own error |
| Measurements.ValidateMeasurements | backend/routes/macros.py:107-148 | passes iff weight, height and age (in [16, 100]) are all in range; a weight or height error takes precedence over the age errors |
| Measurements.ValidateUnit | backend/routes/macros.py:510-514 | passes iff the unit is "lbs" or "kg" |
| Measurements.ValidateActivityLevel | backend/routes/macros.py:504-508 | passes iff the level is one of the five valid levels |
| Measurements.ActivityTablesAgree | backend/routes/macros.py:195-204 | the multiplier table has exactly the valid levels as keys, and every multiplier lies in [1.2, 1.9] |
| Measurements.ConvertToMetricAsWritten | backend/routes/macros.py:150-160 | as written the conversion always fails: a weight or height error when one is out of range, otherwise the age error caused by validating with age 0 |
| Measurements.ConvertToImperialAsWritten | backend/routes/macros.py:162-173 | as written the reverse conversion always fails |
| Measurements.ConvertToMetric | backend/routes/macros.py:150-156 | succeeds iff weight and height are in range; the result is kg = lb·0.453592 and cm = in·2.54, within [18.14368, 317.5144] kg and [91.44, 274.32] cm |
| Measurements.ConvertToImperial | backend/routes/macros.py:162-169 | succeeds iff the converted pounds and inches are in range, and returns them |
| Measurements.MetricRoundTrip | backend/routes/macros.py:150-169 | converting to metric and back restores the height exactly; the weight comes back scaled by 0.99999799504 (within 0.00021 %); the way back fails iff that scaled weight falls below 40 lb |
| Measurements.MetricRoundTripFailsAtMinimumWeight | backend/routes/macros.py:12-14 | because 2.20462 is not the exact inverse of 0.453592, a 40 lb weight converts to metric but not back |
| Entries.SortByDay | backend/routes/macros.py:312 | the result is ordered by day, is a permutation of the input, and has the same length |
| Entries.InsertByDaySorted | backend/routes/macros.py:312 | inserting into an ordered history keeps it ordered |
| Entries.SortByDayOfSorted | backend/routes/macros.py:312 | sorting an ordered history returns it unchanged |
| Entries.SortByDaySameEntries | backend/routes/macros.py:312 | sorting keeps exactly the same entries |
| Entries.SortByDayFirstIsEarliest | backend/routes/macros.py:527-534 | the first sorted entry comes from the history and is no later than any entry |
| Entries.EntriesWithin | backend/routes/macros.py:568 | keeps exactly the entries at most `days` days old, in their order; an ordered input gives an ordered result |
| Trend.DailyChangesShape | backend/routes/macros.py:315-331 | over an ordered history the daily changes have strictly increasing days, one per adjacent pair with a positive day gap |
| Trend.DailyChangesEmptyIff | backend/routes/macros.py:325-334 | there are no daily changes iff every entry falls on the first entry's day |
| Trend.ComputeDailyChanges | backend/routes/macros.py:315-331 | the loop that skips same-day pairs computes exactly the daily-change specification |
| Trend.PeriodsPartition | backend/routes/macros.py:337-361 | grouping splits the daily changes into non-empty consecutive periods whose concatenation is the input; each period spans 1 to 6 days, and each period starts at least 6 days after the previous one |
| Trend.WeeklyAveragesAppend | backend/routes/macros.py:346-350 | closing one more period appends exactly its weekly average to the series |
| Trend.ComputeWeeklyRate | backend/routes/macros.py:346-349 | the mean daily change of a period, scaled by 7 over the period's length in days, is the period's weekly average |
| Trend.ComputeWeeklySeries | backend/routes/macros.py:337-361 | the grouping loop yields exactly the weekly series: one average per period, in order |
| Trend.FlushLastWeek | backend/routes/macros.py:356-361 | flushing the last, always non-empty period completes the weekly series |
| Trend.ReverseInPlace | backend/routes/macros.py:370 | the array afterwards holds the reverse of its old contents |
| Trend.ComputeDecayWeights | backend/routes/macros.py:368-370 | the weights are 0.85^i for i < n, reversed so the newest week gets 0.85^0 |
| Trend.DecayPowDecreasing | backend/routes/macros.py:368-369 | higher powers of the decay factor are strictly smaller |
| Trend.NormalizedWeightsShape | backend/routes/macros.py:368-374 | the normalised weights are positive, sum to 1, and strictly increase towards the newest week |
| Trend.CurrentRateWithinSeries | backend/routes/macros.py:376-377 | the weighted current rate lies between the minimum and maximum of the weekly series |
| Trend.DailyChanges | backend/routes/macros.py:315-331 | on a day-sorted history the daily changes have strictly increasing days, one per adjacent pair with a positive day gap, so at most the number of entries minus one |
| Trend.WeeklyWeightChanges | backend/routes/macros.py:302-386 | fewer than two entries give an empty series with no rate and no trend; a present rate is the weighted rate of a non-empty series; an absent rate means an empty series and no trend |
| Trend.ComputeWeeklyWeightChanges | backend/routes/macros.py:302-386 | the whole procedure computes exactly the series, the current rate and the trend of the specification |
| Trend.NoRateIff | backend/routes/macros.py:308-364 | the rate is absent iff there are fewer than two entries or all entries fall on one day, and then the series is empty; otherwise the series is non-empty |
| Trend.SeriesLengthBound | backend/routes/macros.py:315-361 | the series is no longer than the number of adjacent pairs with a positive day gap, which is at most the number of entries minus one |
| Trend.RateWithinSeries | backend/routes/macros.py:366-377 | a present current rate lies between the smallest and the largest weekly rate |
| Trend.TrendIsLastDifference | backend/routes/macros.py:379-384 | the trend is present iff the series has at least two points, and then it is the last point minus the second-to-last |
| Trend.UnpackedWeeklyChanges | backend/routes/macros.py:308-309 | the three-value unpack done by every caller fails iff an early exit returned two values (fewer than two entries, or all on one day), and otherwise yields the full result |
| Quality.WeightsKg | backend/routes/macros.py:961 | one weight in kg per entry, each the entry's pounds times 0.453592 |
| Quality.FrequencyScore | backend/routes/macros.py:956-958 | the frequency score of a non-empty ordered history lies in (0, 1] |
| Quality.ConsistencyScore | backend/routes/macros.py:961-963 | the consistency score lies in [0, 1] |
| Quality.EntryQuality | backend/routes/macros.py:944-966 | the score lies in [0, 1]; it is 0 without entries and positive otherwise |
| Quality.FullFrequency | backend/routes/macros.py:956-958 | at least three entries per week over the span gives the full frequency score |
| Quality.FullQualityWhenFrequentAndSteady | backend/routes/macros.py:944-966 | frequent entries that all record one weight give the score 1 |
| Quality.SingleEntryQuality | backend/routes/macros.py:944-966 | a single entry scores 1 |
| Quality.UnsteadyDataBelowTrustThreshold | backend/routes/macros.py:962-966 | a variance of at least 2 kg² caps the score at 0.6, below the 0.7 needed to trust the measured TDEE unblended |
| Tdee.BmrShape | backend/routes/macros.py:185-188 | "male" gives exactly 166 kcal more than any other gender value; the BMR grows with weight and height and falls with age |
| Tdee.ValidProfileBmrPositive | backend/routes/macros.py:185-192 | on validated measurements the BMR is at least 91.9368, so the non-positive-BMR error cannot occur |
| Tdee.TdeeFromBmr | backend/routes/macros.py:190-212 | fails on a non-positive BMR and then on an unknown level, in that order; otherwise it returns BMR × factor, which lies in [1.2·BMR, 1.9·BMR] and above BMR |
| Tdee.TheoreticalTdeeAsWritten | backend/routes/macros.py:175-216 | as written the theoretical TDEE always fails: with valid measurements the failure is the conversion's age error |
| Tdee.TheoreticalTdee | backend/routes/macros.py:175-216 | succeeds iff the measurements are valid and the activity level known; it reports the first failed check otherwise; any result lies strictly above the positive BMR, within 1.2 to 1.9 times it |
| Tdee.ActualFromWeeklyChange | backend/routes/macros.py:256-281 | fails iff the assumed intake minus the energy of the weight change is not positive; otherwise the result is that value clamped to [0.7 t, 1.3 t], so it is within 30 % of the theoretical t |
| Tdee.ActualTdeeAntitoneInChange | backend/routes/macros.py:253-266 | a faster loss never lowers the measured TDEE |
| Tdee.ActualTdeeDirectionAtMaintenance | backend/routes/macros.py:253-266 | with intake assumed at the TDEE, a loss gives a measured TDEE above the theoretical one, a gain one below it, and no change the theoretical TDEE itself |
| Tdee.ActualTdeeAsWritten | backend/routes/macros.py:218-234 | as written the actual TDEE fails iff there are at least two entries (validation with age 0); otherwise it is absent |
| Tdee.ActualTdee | backend/routes/macros.py:218-281 | absent with fewer than two entries; with valid weights, absent iff the span is under 14 days; the first weight error, then the last weight error, is reported; a present value is positive and within 30 % of the theoretical TDEE |
| Tdee.BlendTdee | backend/routes/macros.py:623-628 | the measured TDEE is used when present and the quality is at least 0.7; the theoretical one when the measured one is absent or zero; the blend always lies between the two |
| Adaptive.LossTargetsOrModerate | backend/routes/macros.py:403 | an unknown intensity falls back to the moderate loss band; every band satisfies 0 < low < high |
| Adaptive.GainTargetsOrModerate | backend/routes/macros.py:461 | the same for the gain band |
| Adaptive.DeficitForRate | backend/routes/macros.py:402-444 | the deficit is in [0.10, 0.30]; it is 0.15 inside the band, above 0.15 when losing less than the band's minimum, and below 0.15 when losing more than its maximum |
| Adaptive.SurplusForRate | backend/routes/macros.py:460-502 | the surplus is in [0.03, 0.15]; it is 0.05 inside the band, above 0.05 when gaining too slowly, and below 0.05 when gaining too fast |
| Adaptive.StepMono | backend/routes/macros.py:413-417 | the proportional step grows with the distance from the band |
| Adaptive.DeficitMonotone | backend/routes/macros.py:408-444 | the deficit never decreases as the rate grows (the faster the loss, the smaller the deficit) |
| Adaptive.SurplusMonotone | backend/routes/macros.py:466-502 | the surplus never increases as the rate grows |
| Adaptive.AdaptiveDeficit | backend/routes/macros.py:388-444 | always in [0.10, 0.30]; the base 0.15 with fewer than two entries or no rate; otherwise the rate-driven deficit |
| Adaptive.AdaptiveSurplus | backend/routes/macros.py:446-502 | always in [0.03, 0.15]; the base 0.05 with fewer than two entries or no rate; otherwise the rate-driven surplus |
| Adaptive.SameDayHistoryGetsBase | backend/routes/macros.py:393-400 | a history whose entries all fall on one day gives the base deficit and the base surplus |
| Phase.GoalPhase | backend/routes/macros.py:521-524 | the goal-driven phase is recomp, cut or bulk by goal, with an initial or an active reason |
| Phase.AdaptationIndicators | backend/routes/macros.py:539-561 | fails iff the mean of the first four weekly points is zero (the source's division); each indicator is raised exactly when its test holds |
| Phase.DetectAdaptation | backend/routes/macros.py:539-561 | the loop that collects the indicators computes exactly the indicator specification |
| Phase.ConsecutiveChangesKg | backend/routes/macros.py:570-571 | one absolute change in kg per pair of consecutive entries |
| Phase.CheckAllBelow | backend/routes/macros.py:572 | the loop decides whether every change is below the bound |
| Phase.CheckMaintaining | backend/routes/macros.py:563-573 | the loop decides the maintenance test of the specification |
| Phase.TrendPhase | backend/routes/macros.py:538-578 | the trend rules never give deload nor the extended-deficit reason |
| Phase.PhaseFromSeries | backend/routes/macros.py:533-578 | the extended-deficit break is given iff the goal is lose or recomp and the first entry is at least 90 days old; deload never occurs |
| Phase.DietPhaseFor | backend/routes/macros.py:516-578 | the diet phase is never deload |
| Phase.DetermineDietPhase | backend/routes/macros.py:516-578 | the classifier method computes exactly the ordered-rule specification |
| Phase.FewEntriesFollowGoal | backend/routes/macros.py:521-524 | with fewer than two entries the phase follows the goal with the initial reason (cut for lose) |
| Phase.ExtendedDeficitIff | backend/routes/macros.py:533-536 | "Extended deficit period" iff there are at least two entries, the goal is lose or recomp, and the earliest entry is at least 90 days old |
| Phase.AdaptationBreakNeedsFourWeeks | backend/routes/macros.py:539-561 | an adaptation-driven diet break needs at least four weekly points, a lose or recomp goal, and at least one indicator |
| Phase.BreakAndMaintenanceReasons | backend/routes/macros.py:533-573 | a diet break or maintenance needs goal lose or recomp, and each comes only with its own reasons |
| Phase.MaintenanceNeedsStableRecentWeights | backend/routes/macros.py:563-573 | maintenance needs a present rate below 20 % of the band minimum, at least three entries in the last 14 days, and every consecutive change below that threshold |
| Phase.MaintainingUnfolds | backend/routes/macros.py:566-572 | the maintenance test spelt out entry by entry |
| Phase.OtherGoalsFollowGoal | backend/routes/macros.py:575-578 | goals other than lose and recomp always yield bulk, never a diet break or maintenance |
| Phase.PhaseErrors | backend/routes/macros.py:539-565 | in the model, where dates are whole days, the classifier fails only for goal lose or recomp with two or more entries, and then only by dividing by a zero initial rate (four or more weekly points averaging 0 at first) or by reading an intensity the profile lacks; with an intensity and no such division it always decides |
| Phase.SeriesPhaseErrors | backend/routes/macros.py:533-578 | the same error conditions stated over a given sorted history and series |
| Phase.ShortWindowNeverExtended | backend/routes/macros.py:534-536 | on a history younger than 90 days, such as the four weeks `calculate_macros` reads, the extended-deficit break cannot occur |
| Macros.MaintenanceCalories | backend/routes/macros.py:580-591 | a diet break adds exactly 10 % to the TDEE; every other phase keeps it |
| Macros.TargetCalories | backend/routes/macros.py:643-658 | a diet break gives 1.1 × TDEE, maintenance the TDEE, and in the other phases a goal other than lose and gain the TDEE |
| Macros.TargetCaloriesByGoal | backend/routes/macros.py:649-656 | outside a diet break and maintenance, goal lose gives TDEE × (1 − deficit) and goal gain TDEE × (1 + surplus) |
| Macros.TargetCaloriesBounds | backend/routes/macros.py:643-658 | for a positive TDEE the calories lie in [0.7, 1.15] × TDEE |
| Macros.CutCaloriesWithin | backend/routes/macros.py:651-653 | a cut eats 70 % to 90 % of the TDEE |
| Macros.BulkCaloriesWithin | backend/routes/macros.py:654-656 | a bulk eats 103 % to 115 % of the TDEE |
| Macros.PhaseCaloriesWithin | backend/routes/macros.py:646-658 | a diet break gives exactly 1.1 × TDEE; maintenance, or a goal other than lose and gain, gives exactly the TDEE; for a positive TDEE both lie in [TDEE, 1.1 × TDEE] |
| Macros.CutCaloriesFollowRate | backend/routes/macros.py:651-653 | a cut is always below the TDEE, and a faster loss never gives fewer calories |
| Macros.CutCaloriesAntitone | backend/routes/macros.py:651-653 | a larger deficit never gives more calories |
| Macros.ValidateCalories | backend/routes/macros.py:287-300 | fails iff the calories are below max(1500 if male else 1200, BMR), reporting that floor |
| Macros.ProteinMultiplier | backend/routes/macros.py:664-683 | the protein multiplier lies in [1.7, 2.86] g/kg, and is 1.7 for an unknown activity level |
| Macros.DeficitProteinAtLeastBase | backend/routes/macros.py:664-680 | both tables have exactly the valid levels; lose and recomp use the higher table, which exceeds the base one at every level |
| Macros.FatRange | backend/routes/macros.py:686-693 | each fat range satisfies 0 < min < max ≤ 0.35 |
| Macros.RecompFatFallsBack | backend/routes/macros.py:686-693 | recomp, having no entry, falls back to (0.25, 0.35), like maintain and gain; only lose gets (0.20, 0.25) |
| Macros.AllocateMacros | backend/routes/macros.py:683-701 | protein = kg × multiplier; fat bounds are the calorie shares over 9; protein, fat and carb energies add up to the calories at both ends; carb range = fat range × 9/4; for non-negative calories the ranges are ordered |
| Macros.ReportedProteinBreaksEnergyBalance | backend/routes/macros.py:704 | the reported protein is the grams times 2.20462, exceeding the grams the budget used, so the reported protein, fat and carbs add up to more energy than the calories |
| Macros.ReportedProteinAsWritten | backend/routes/macros.py:704 | the reported protein is the grams plus 1.20462 times the grams, so positive grams are always over-reported |
| Macros.ReportedProteinExample | backend/routes/macros.py:704 | 90 kg, maintain, moderate: 198 g of protein are reported as 436.51476 |
| Macros.TargetBand | backend/routes/macros.py:760-768 | the strict target lookup fails iff the intensity is neither moderate nor aggressive; otherwise it gives the loss band for lose and the gain band for any other goal |
| Macros.DescribeTrend | backend/routes/macros.py:758 | accelerating iff the trend is positive, decelerating iff negative, stable iff exactly zero, absent iff there is no trend |
| Macros.RecompRange | backend/routes/macros.py:780-781 | the recomp range is symmetric about a positive TDEE and contains it strictly |
| Macros.RecentEntries | backend/routes/macros.py:606-611 | exactly the entries at most 28 days old, in day order |
| Macros.EstimateEnergy | backend/routes/macros.py:614-628 | the theoretical and actual TDEE come from their functions and errors propagate; the quality lies in [0, 1]; the chosen TDEE is positive and between the two |
| Macros.PlanFromEnergy | backend/routes/macros.py:630-701 | the plan's calories are the target for the classified phase, the goal and the controllers' deficit and surplus over the history; when the classifier decides, a target below max(gender floor, BMR) is rejected as unsafe with that floor, an unknown intensity then fails the band lookup, and otherwise a plan is returned; the calories lie in [0.7, 1.15] × TDEE; the BMR is the Mifflin-St Jeor formula; classifier errors propagate; the allocation balances the calories |
| Macros.PlanFor | backend/routes/macros.py:593-701 | unit errors come first, then activity-level errors, then measurement errors; any plan's energy and phase are those estimated and classified over the last 28 days of history, and its calories are the target for that phase, the goal and the controllers' deficit and surplus over the same entries; any plan has valid measurements, a positive BMR, safe balanced calories within [0.7, 1.15] × TDEE, a phase other than deload or extended deficit, ordered ranges and protein of at least 1.7 g/kg |
| Macros.PlanProperties | backend/routes/macros.py:640-701 | over four weeks of history the phase is never deload nor an extended deficit, the ranges are ordered, and protein is at least 1.7 g per kg of body weight |
| Macros.PlanForAsWritten | backend/routes/macros.py:593-604 | as written `calculate_macros` always fails; with a valid unit, level and measurements the failure is the conversion's age error |
| Macros.ExamplePlan | backend/routes/macros.py:593-701 | a 198.4 lb, 70.1 in, 30-year-old man, moderately active, losing, without history: BMR 1867.764028, TDEE 2895.0342434, phase cut, 2460.77910689 kcal, 237.580603392 g of protein and at most 254.575217986 g of carbohydrates |
| Macros.UnderageProfileRejected | backend/routes/macros.py:138-143 | a 15-year-old is rejected with the minimum-age error |
| Macros.CalculateMacros | backend/routes/macros.py:593-701 | the step-by-step assembly computes exactly the plan specification |
| Guard.ValidateWeightEntry | backend/routes/macros.py:914-942 | always valid; warns iff there is a previous entry and the change from the last one exceeds 2 kg, reporting that change in pounds |
| Guard.WarningThresholdInPounds | backend/routes/macros.py:923-928 | a change of at most 4.4 lb never warns and one of at least 4.5 lb always does |
| Guard.StoredLb | backend/routes/macros.py:982-987 | a pound entry is stored as given; a kilogram entry is stored as kg × 2.20462, which converts back to the kilograms scaled by 0.99999799504 |
| Guard.DecideEntryWith | backend/routes/macros.py:996-1019 | confirmation is required iff the entry is unconfirmed and differs from the reference by more than 2 kg; without a reference, or when confirmed, the stored pounds are accepted; the confirmation shows the weight, the previous weight, the change and the preferred unit |
| Guard.ReferenceOldestVersusNewest | backend/routes/macros.py:990-996 | in a newest-first list the last element is the oldest entry, the first the newest |
| Guard.DecideEntryAsWritten | backend/routes/macros.py:976-1019 | as written: a missing weight is an error; otherwise the decision compares against the oldest recent entry |
| Guard.DecideEntry | backend/routes/macros.py:976-1019 | a missing weight is an error; a given weight always gets a decision, and confirmation is required iff the entry is unconfirmed, there are recent entries, and it differs from the newest of them by more than 2 kg, whose weight the confirmation shows as the previous one; an accepted entry stores the converted pounds; re-entering the newest weight in pounds is accepted as is |
| Guard.OldestReferenceCounterexample | backend/routes/macros.py:990-1002 | recent entries of 200 lb (newest) and 190 lb (oldest), new entry 200 lb: as written it asks for confirmation, corrected it accepts 200 lb |
| Guard.LargeJumpNeedsConfirmation | backend/routes/macros.py:996-1014 | 198 lb then 205 lb unconfirmed asks for confirmation with the change in pounds; confirmed it stores 205 lb |
| Guard.KilogramEntryStoredInPounds | backend/routes/macros.py:982-987 | 80 kg after 175 lb with preferred unit kg is accepted and stored as 176.3696 lb |
| Guard.GuardAgreesWithValidator | backend/routes/macros.py:914-942 | for a pound entry against the same reference, the route asks for confirmation iff unconfirmed and the validator warns |

## Left out

- The Flask routes, JWT identity, SQLAlchemy queries and persistence (`get_macros`, `update_macros`, the database parts of `add_weight_entry`). The two queries become `Macros.RecentEntries` (the last four weeks, oldest first) and the `recent` parameter of `Guard.DecideEntry` (the last seven days, newest first). Ties between entries of one day keep their input order, as a stable sort does.
- `backend/routes/weight.py`, `backend/routes/auth.py`, `backend/routes/user.py`, `backend/app.py`, the models and the tests are not part of this model.
- The JSON responses, error and warning message texts, `round()`, and the `per_lb`, `percent`, `difference_percent`, pound-converted trend and recommendation fields. Of the response, only the trend label, the target band and the recomp range are modelled.
- Floating point: all arithmetic is exact `real` arithmetic. The model does not claim an exact lb/kg round trip; `Measurements.MetricRoundTrip` states the exact scale factor.
- The `isinstance` number check in `validate_measurements`: typed inputs make it vacuous.
- Clock reads: `datetime.now()` becomes the `today` parameter, and dates are whole days.
- Phase.DietPhaseFor: `WeightEntry.date` is a `db.Date` column (backend/models/weight.py:10), so `datetime.now() - e.date` at backend/routes/macros.py:534 and :568 subtracts a date from a datetime, which Python rejects with a TypeError. The model uses whole-day arithmetic instead, so it does not capture that failure for goal lose or recomp.
- Python truthiness of `confirmed` becomes a `bool`. `getattr` defaults become `Option` fields with `GetOr`.
- Macros.TargetCalories: it takes the deficit and the surplus as parameters instead of calling the controllers. `Macros.PlanFromEnergy` passes `Adaptive.AdaptiveDeficit` and `Adaptive.AdaptiveSurplus`, and the bounds lemmas assume only the controllers' proved ranges.
- Guard.DecideEntryWith: the displayed weight change is not rounded to one decimal.
- The generic `except Exception` wrappers only re-label errors. The model keeps the error kind, not the message prefix.

## Findings

| source | as written | input that shows it | evidently intended | confidence | as-written member | corrected member |
|---|---|---|---|---|---|---|
| backend/routes/macros.py:153 | `convert_to_metric` validates with age 0, below the minimum age 16, so it rejects every input, and so do `calculate_theoretical_tdee` and `calculate_macros` | 198.4 lb, 70.1 in (any valid profile) | validate only the weight and the height, then convert | high, not executed | Measurements.ConvertToMetricAsWritten | Measurements.ConvertToMetric |
| backend/routes/macros.py:168 | `convert_to_imperial` validates with age 0 and rejects every input | 90 kg, 180 cm | validate only the converted weight and height | high, not executed | Measurements.ConvertToImperialAsWritten | Measurements.ConvertToImperial |
| backend/routes/macros.py:233-234 | `calculate_actual_tdee` validates each entry's weight with age 0, so it fails whenever there are two or more entries | any two entries | validate the weights and the height only | high, not executed | Tdee.ActualTdeeAsWritten | Tdee.ActualTdee |
| backend/routes/macros.py:308-309 | the early exits return two values while every caller (lines 397, 455, 530, 614) unpacks three, so fewer than two entries, or all entries on one day, raise instead of giving "no rate" | a single entry | return an empty series with no rate and no trend | high, not executed | Trend.UnpackedWeeklyChanges | Trend.ComputeWeeklyWeightChanges |
| backend/routes/macros.py:996 | the large-jump guard compares against `recent_entries[-1]` of a newest-first list, the oldest entry of the week | 200 lb on day 7, 190 lb on day 1, new entry 200 lb | compare against the newest entry, `recent_entries[0]` | medium, not executed | Guard.DecideEntryAsWritten | Guard.DecideEntry |
| backend/routes/macros.py:704 | the protein grams are multiplied by 2.20462 and reported as grams, so the reported protein, fat and carbs no longer add up to the calories | 90 kg, maintain, moderate: 198 g reported as 436.5 g | report the grams computed at line 683 | high, not executed | Macros.ReportedProteinBreaksEnergyBalance | Macros.AllocateMacros |
