/** The large-jump guard on new weight entries: `validate_weight_entry` and the
    confirm-or-accept decision of `add_weight_entry`. A new weight that differs
    from the reference weight of the last seven days by more than 2 kg must be
    confirmed before it is stored; the store keeps pounds. */
module Guard {
  import opened Base
  import opened Entries
  import opened Measurements

  /** Largest change (kg) between a new weight and the reference weight accepted
      without a warning or a confirmation. The source reuses its 2.0 variance
      constant for this threshold. */
  const MAX_ENTRY_CHANGE_KG: real := 2.0

  /** The result of `validate_weight_entry`: always valid, with a warning that
      carries the change in pounds when the change is significant. */
  datatype EntryCheck = EntryCheck(valid: bool, warningChangeLb: Option<real>)

  /** `validate_weight_entry`: compares the new weight (lb) with the last of the
      previous entries. It always reports the entry valid; it warns exactly when
      there is a previous entry and the two differ by more than 2 kg. */
  function ValidateWeightEntry(newWeightLb: real, previous: seq<WeightEntry>): (r: EntryCheck)
    ensures r.valid
    ensures r.warningChangeLb.Some? <==>
      previous != [] && Abs(newWeightLb - previous[|previous| - 1].weightLb) * LB_TO_KG > MAX_ENTRY_CHANGE_KG
    ensures r.warningChangeLb.Some? ==>
      r.warningChangeLb.value == Abs(newWeightLb - previous[|previous| - 1].weightLb) * LB_TO_KG * KG_TO_LB
  {
    if previous == [] then
      EntryCheck(true, None)
    else
      var newWeightKg := newWeightLb * LB_TO_KG;
      var lastWeightKg := previous[|previous| - 1].weightLb * LB_TO_KG;
      var change := Abs(newWeightKg - lastWeightKg);
      AbsScale(newWeightLb, previous[|previous| - 1].weightLb, LB_TO_KG);
      if change > MAX_ENTRY_CHANGE_KG then EntryCheck(true, Some(change * KG_TO_LB))
      else EntryCheck(true, None)
  }

  /** Converting both weights to kg scales their distance by the conversion factor. */
  lemma AbsScale(a: real, b: real, k: real)
    requires k > 0.0
    ensures Abs(a * k - b * k) == Abs(a - b) * k
  {
    assert a * k - b * k == (a - b) * k;
    if a - b < 0.0 {
      assert (a - b) * k < 0.0 by { MulLeftMono(a - b, 0.0, k); }
    } else {
      MulLeftMono(0.0, a - b, k);
    }
  }

  /** The 2 kg threshold is a change of more than 4.40925... lb: a change of 4.4 lb
      never warns, one of 4.5 lb always does. */
  lemma WarningThresholdInPounds(newWeightLb: real, lastWeightLb: real)
    ensures Abs(newWeightLb - lastWeightLb) <= 4.4 ==>
      ValidateWeightEntry(newWeightLb, [WeightEntry(0, lastWeightLb)]).warningChangeLb.None?
    ensures Abs(newWeightLb - lastWeightLb) >= 4.5 ==>
      ValidateWeightEntry(newWeightLb, [WeightEntry(0, lastWeightLb)]).warningChangeLb.Some?
  {
    var d := Abs(newWeightLb - lastWeightLb);
    if d <= 4.4 {
      MulLeftMono(d, 4.4, LB_TO_KG);
    }
    if d >= 4.5 {
      MulLeftMono(4.5, d, LB_TO_KG);
    }
  }

  /** What `add_weight_entry` does with a new weight. */
  datatype EntryDecision =
    | RequiresConfirmation(currentWeight: real, previousWeightLb: Option<real>, weightChange: real, unit: string)
    | Accept(storedWeightLb: real)

  /** The input unit: the request's unit, or else the preferred one. */
  function InputUnit(unit: Option<string>, preferredUnit: string): string {
    unit.GetOr(preferredUnit)
  }

  /** The new weight in kg: converted from pounds when the input unit is 'lbs',
      taken as kg for any other unit. */
  function InputKg(weight: real, unit: Option<string>, preferredUnit: string): real {
    if InputUnit(unit, preferredUnit) == "lbs" then weight * LB_TO_KG else weight
  }

  /** The weight stored (in pounds): the input itself when it is in pounds, the
      kg value converted with KG_TO_LB otherwise. */
  function StoredLb(weight: real, unit: Option<string>, preferredUnit: string): (r: real)
    ensures InputUnit(unit, preferredUnit) == "lbs" ==> r * LB_TO_KG == InputKg(weight, unit, preferredUnit)
    ensures InputUnit(unit, preferredUnit) != "lbs" ==> r * LB_TO_KG == InputKg(weight, unit, preferredUnit) * 0.99999799504
  {
    if InputUnit(unit, preferredUnit) == "lbs" then weight else weight * KG_TO_LB
  }

  /** The decision against a reference entry (none when the user has no entry in
      the last seven days, and then the change is zero). A significant change
      (more than 2 kg) without confirmation asks for confirmation, showing the new
      weight and the change in the preferred unit and the reference weight in
      pounds; anything else is stored, in pounds. */
  function DecideEntryWith(reference: Option<WeightEntry>, weight: real, unit: Option<string>, preferredUnit: string, confirmed: bool)
    : (d: EntryDecision)
    ensures var kg := InputKg(weight, unit, preferredUnit);
      var lastKg := if reference.Some? then reference.value.weightLb * LB_TO_KG else kg;
      d.RequiresConfirmation? <==> !confirmed && Abs(kg - lastKg) > MAX_ENTRY_CHANGE_KG
    ensures d.Accept? ==> d.storedWeightLb == StoredLb(weight, unit, preferredUnit)
    ensures reference.None? ==> d == Accept(StoredLb(weight, unit, preferredUnit))
    ensures confirmed ==> d == Accept(StoredLb(weight, unit, preferredUnit))
    ensures d.RequiresConfirmation? ==>
      && d.unit == preferredUnit
      && d.previousWeightLb == Some(reference.value.weightLb)
      && d.currentWeight == (if preferredUnit == "lbs" then StoredLb(weight, unit, preferredUnit) else InputKg(weight, unit, preferredUnit))
      && d.weightChange > 0.0
  {
    var weightKg := InputKg(weight, unit, preferredUnit);
    var stored := StoredLb(weight, unit, preferredUnit);
    var lastWeightKg := if reference.Some? then reference.value.weightLb * LB_TO_KG else weightKg;
    var weightChangeKg := Abs(weightKg - lastWeightKg);
    if weightChangeKg > MAX_ENTRY_CHANGE_KG && !confirmed then
      var displayWeight := if preferredUnit == "lbs" then stored else weightKg;
      var previous := if reference.Some? then Some(reference.value.weightLb) else None;
      var change := if preferredUnit == "lbs" then weightChangeKg * KG_TO_LB else weightChangeKg;
      RequiresConfirmation(displayWeight, previous, change, preferredUnit)
    else
      Accept(stored)
  }

  predicate SortedByDayDescending(s: seq<WeightEntry>) {
    forall i, j :: 0 <= i < j < |s| ==> s[i].day >= s[j].day
  }

  /** The reference AS WRITTEN: the last element of the entries of the last seven
      days, which the query orders newest first. */
  function ReferenceAsWritten(recent: seq<WeightEntry>): Option<WeightEntry> {
    if recent == [] then None else Some(recent[|recent| - 1])
  }

  /** The reference as evidently intended: the most recent entry. */
  function Reference(recent: seq<WeightEntry>): Option<WeightEntry> {
    if recent == [] then None else Some(recent[0])
  }

  /** On a newest-first list the as-written reference is the OLDEST entry of the
      week and the intended one the NEWEST. */
  lemma ReferenceOldestVersusNewest(recent: seq<WeightEntry>)
    requires recent != [] && SortedByDayDescending(recent)
    ensures forall e :: e in recent ==> ReferenceAsWritten(recent).value.day <= e.day <= Reference(recent).value.day
    ensures ReferenceAsWritten(recent).value in recent && Reference(recent).value in recent
  {
    forall e | e in recent ensures ReferenceAsWritten(recent).value.day <= e.day <= Reference(recent).value.day {
      var i :| 0 <= i < |recent| && recent[i] == e;
    }
  }

  /** `add_weight_entry`'s decision AS WRITTEN, against the oldest entry of the
      week; a request without a weight is rejected. */
  function DecideEntryAsWritten(recent: seq<WeightEntry>, weight: Option<real>, unit: Option<string>, preferredUnit: string, confirmed: bool)
    : (r: Result<EntryDecision>)
    ensures r.Err? <==> weight.None?
    ensures r.Err? ==> r.error == MissingWeight
    ensures r.Ok? ==> r.value == DecideEntryWith(ReferenceAsWritten(recent), weight.value, unit, preferredUnit, confirmed)
  {
    if weight.None? then Err(MissingWeight)
    else Ok(DecideEntryWith(ReferenceAsWritten(recent), weight.value, unit, preferredUnit, confirmed))
  }

  /** The decision as evidently intended, against the latest entry: a request
      without a weight is rejected, and a new weight equal to the latest weight
      (in pounds) is always accepted as it is. */
  function DecideEntry(recent: seq<WeightEntry>, weight: Option<real>, unit: Option<string>, preferredUnit: string, confirmed: bool)
    : (r: Result<EntryDecision>)
    ensures r.Err? <==> weight.None?
    ensures r.Err? ==> r.error == MissingWeight
    ensures weight.Some? && recent != [] && InputUnit(unit, preferredUnit) == "lbs" && weight.value == recent[0].weightLb ==>
      r == Ok(Accept(weight.value))
    ensures weight.Some? && (recent == [] || confirmed) ==> r == Ok(Accept(StoredLb(weight.value, unit, preferredUnit)))
    ensures weight.Some? ==>
      && r.Ok?
      && (r.value.RequiresConfirmation? <==>
            !confirmed && recent != [] &&
            Abs(InputKg(weight.value, unit, preferredUnit) - recent[0].weightLb * LB_TO_KG) > MAX_ENTRY_CHANGE_KG)
    ensures r.Ok? && r.value.RequiresConfirmation? ==> r.value.previousWeightLb == Some(recent[0].weightLb)
    ensures r.Ok? && r.value.Accept? ==> r.value.storedWeightLb == StoredLb(weight.value, unit, preferredUnit)
  {
    if weight.None? then Err(MissingWeight)
    else Ok(DecideEntryWith(Reference(recent), weight.value, unit, preferredUnit, confirmed))
  }

  /** A user who weighed 190 lb six days ago and 200 lb today enters 200 lb again:
      as written the guard compares with the 190 lb entry and asks for
      confirmation of a 10 lb jump; against the latest entry it is accepted. */
  lemma OldestReferenceCounterexample()
    ensures var recent := [WeightEntry(7, 200.0), WeightEntry(1, 190.0)];
      && SortedByDayDescending(recent)
      && DecideEntryAsWritten(recent, Some(200.0), None, "lbs", false).Ok?
      && DecideEntryAsWritten(recent, Some(200.0), None, "lbs", false).value.RequiresConfirmation?
      && DecideEntry(recent, Some(200.0), None, "lbs", false) == Ok(Accept(200.0))
  {
    var recent := [WeightEntry(7, 200.0), WeightEntry(1, 190.0)];
    assert Abs(200.0 * LB_TO_KG - 190.0 * LB_TO_KG) == 4.53592;
  }

  /** Entering 205 lb after 198 lb (a 3.175144 kg jump) needs confirmation; once
      confirmed, 205 lb is stored. */
  lemma LargeJumpNeedsConfirmation()
    ensures DecideEntry([WeightEntry(3, 198.0)], Some(205.0), Some("lbs"), "lbs", false) ==
      Ok(RequiresConfirmation(205.0, Some(198.0), 3.175144 * KG_TO_LB, "lbs"))
    ensures DecideEntry([WeightEntry(3, 198.0)], Some(205.0), Some("lbs"), "lbs", true) == Ok(Accept(205.0))
  {
    assert Abs(205.0 * LB_TO_KG - 198.0 * LB_TO_KG) == 3.175144;
  }

  /** Entering 80 kg for a user who prefers kilograms, after 175 lb (79.3786 kg):
      the change is below 2 kg and 80 kg is stored as 176.3696 lb. */
  lemma KilogramEntryStoredInPounds()
    ensures DecideEntry([WeightEntry(3, 175.0)], Some(80.0), None, "kg", false) == Ok(Accept(176.3696))
  {
    assert Abs(80.0 - 175.0 * LB_TO_KG) == 0.6214;
  }

  /** With pounds as input unit and the reference the last previous entry, the
      route asks for confirmation exactly when `validate_weight_entry` warns
      (and the entry is unconfirmed). */
  lemma GuardAgreesWithValidator(previous: seq<WeightEntry>, weightLb: real, preferredUnit: string, confirmed: bool)
    requires previous != []
    ensures DecideEntryWith(Some(previous[|previous| - 1]), weightLb, Some("lbs"), preferredUnit, confirmed).RequiresConfirmation? <==>
      !confirmed && ValidateWeightEntry(weightLb, previous).warningChangeLb.Some?
  {
    AbsScale(weightLb, previous[|previous| - 1].weightLb, LB_TO_KG);
  }
}
