/** Data-quality score of a weight history (`calculate_weight_entry_quality`): 60 %
    how often the user weighs in (relative to three entries a week) and 40 % how
    steady the weights are (their variance relative to 2 kg). The score decides
    how far the measured TDEE is trusted. */
module Quality {
  import opened Base
  import opened Entries
  import opened Measurements

  const MIN_WEIGHT_ENTRIES_PER_WEEK: real := 3.0
  const MAX_WEIGHT_VARIANCE: real := 2.0
  const FREQUENCY_WEIGHT: real := 0.6
  const CONSISTENCY_WEIGHT: real := 0.4

  /** `[entry.weight * LB_TO_KG for entry in entries]` */
  function WeightsKg(s: seq<WeightEntry>): (r: seq<real>)
    ensures |r| == |s|
    ensures forall i :: 0 <= i < |s| ==> r[i] == s[i].weightLb * LB_TO_KG
  {
    if s == [] then [] else [s[0].weightLb * LB_TO_KG] + WeightsKg(s[1..])
  }

  /** `min(entries_per_week / 3, 1)` over the days from the first to the last entry, both included. */
  function FrequencyScore(sorted: seq<WeightEntry>): (r: real)
    requires sorted != [] && SortedByDay(sorted)
    ensures 0.0 < r <= 1.0
  {
    var totalDays := sorted[|sorted| - 1].day - sorted[0].day + 1;
    var entriesPerWeek := |sorted| as real / (totalDays as real / 7.0);
    Min(entriesPerWeek / MIN_WEIGHT_ENTRIES_PER_WEEK, 1.0)
  }

  /** `1 - min(variance / 2, 1)` */
  function ConsistencyScore(sorted: seq<WeightEntry>): (r: real)
    requires sorted != []
    ensures 0.0 <= r <= 1.0
  {
    1.0 - Min(Variance(WeightsKg(sorted)) / MAX_WEIGHT_VARIANCE, 1.0)
  }

  /** The score is 0 without entries and otherwise lies in [0.4 * consistency,
      1]; in particular it is always a number in [0, 1]. */
  function EntryQuality(entries: seq<WeightEntry>): (r: real)
    ensures 0.0 <= r <= 1.0
    ensures entries == [] ==> r == 0.0
    ensures entries != [] ==> r > 0.0
  {
    if entries == [] then
      0.0
    else
      var sorted := SortByDay(entries);
      FREQUENCY_WEIGHT * FrequencyScore(sorted) + CONSISTENCY_WEIGHT * ConsistencyScore(sorted)
  }

  /** At least three entries per week over the span of an ordered history give
      the full frequency score. */
  lemma FullFrequency(sorted: seq<WeightEntry>)
    requires sorted != [] && SortedByDay(sorted)
    requires |sorted| as real * 7.0 >= MIN_WEIGHT_ENTRIES_PER_WEEK * (sorted[|sorted| - 1].day - sorted[0].day + 1) as real
    ensures FrequencyScore(sorted) == 1.0
  {
    var t := (sorted[|sorted| - 1].day - sorted[0].day + 1) as real / 7.0;
    var n := |sorted| as real;
    assert t > 0.0;
    var q := n / t;
    assert q * t == n;
    if q < MIN_WEIGHT_ENTRIES_PER_WEEK {
      MulLeftMono(q, MIN_WEIGHT_ENTRIES_PER_WEEK, t);
      assert false;
    }
  }

  /** Perfect data: at least three entries per week over the history's span and
      the same weight every time give the full score. */
  lemma FullQualityWhenFrequentAndSteady(entries: seq<WeightEntry>, w: real)
    requires entries != []
    requires forall i :: 0 <= i < |entries| ==> entries[i].weightLb == w
    requires var sorted := SortByDay(entries);
      |entries| as real * 7.0 >= MIN_WEIGHT_ENTRIES_PER_WEEK * (sorted[|sorted| - 1].day - sorted[0].day + 1) as real
    ensures EntryQuality(entries) == 1.0
  {
    var sorted := SortByDay(entries);
    SortByDaySameEntries(entries);
    var kg := WeightsKg(sorted);
    forall i | 0 <= i < |kg| ensures kg[i] == w * LB_TO_KG {
      assert sorted[i] in entries;
    }
    ConstantVariance(kg, w * LB_TO_KG);
    FullFrequency(sorted);
  }

  /** A single entry counts as seven entries a week with no variance: full score. */
  lemma SingleEntryQuality(e: WeightEntry)
    ensures EntryQuality([e]) == 1.0
  {
    FullQualityWhenFrequentAndSteady([e], e.weightLb);
  }

  /** Unsteady data is never trusted fully: with a variance of at least 2 kg
      squared the consistency part is zero, so the score stays below the 0.7
      needed to use the measured TDEE unblended. */
  lemma UnsteadyDataBelowTrustThreshold(entries: seq<WeightEntry>)
    requires entries != []
    requires Variance(WeightsKg(SortByDay(entries))) >= MAX_WEIGHT_VARIANCE
    ensures EntryQuality(entries) <= FREQUENCY_WEIGHT
    ensures EntryQuality(entries) < 0.7
  {
  }
}
