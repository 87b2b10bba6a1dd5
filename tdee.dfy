/** The TDEE calculator: the activity-factor table, the user's custom activities, the energy category
    and the maintenance offsets shown with the result. */
module Tdee {

  import opened Common
  import opened JsMath
  import opened Units
  import opened Bmr

  /** The five keys of the default activity table. */
  datatype PresetLevel = Sedentary | Light | Moderate | Active | VeryActive

  /** The value of the activity selector: a key of the default table, or "custom-" followed by the id
      of a custom activity. */
  datatype ActivityLevel = Preset(key: PresetLevel) | Custom(id: string)

  /** A user-defined activity multiplier. */
  datatype CustomActivity = CustomActivity(id: string, name: string, factor: real)

  /** The four energy categories; the component stores the label of one. */
  datatype EnergyNeeds = LowNeeds | ModerateNeeds | HighNeeds | VeryHighNeeds

  /** The label the component stores and shows for a category. */
  function NeedsLabel(n: EnergyNeeds): string
  {
    match n
    case LowNeeds => "Low Energy Needs"
    case ModerateNeeds => "Moderate Energy Needs"
    case HighNeeds => "High Energy Needs"
    case VeryHighNeeds => "Very High Energy Needs"
  }

  /** What the component stores: BMR and TDEE rounded in the caller's energy unit, and the category. */
  datatype TdeeResult = TdeeResult(bmr: int, tdee: int, category: EnergyNeeds)

  /** The default activity table. */
  function DefaultFactor(key: PresetLevel): real
  {
    match key
    case Sedentary => 1.2
    case Light => 1.375
    case Moderate => 1.55
    case Active => 1.725
    case VeryActive => 1.9
  }

  /** The factor used for a custom level whose activity is no longer listed. */
  const FallbackFactor: real := 1.2

  /** Array.find by id: the position of the first activity with the id, if any. */
  function FindById(activities: seq<CustomActivity>, id: string): (r: Option<nat>)
    ensures r.Some? ==> r.value < |activities| && activities[r.value].id == id
    ensures r.Some? ==> forall j :: 0 <= j < r.value ==> activities[j].id != id
    ensures r.None? <==> forall j :: 0 <= j < |activities| ==> activities[j].id != id
  {
    if activities == [] then None
    else if activities[0].id == id then Some(0)
    else match FindById(activities[1..], id)
      case None => None
      case Some(i) => Some(i + 1)
  }

  /** The multiplier of a selected level: the default table for a preset; for a custom level the
      activity's factor, or 1.2 when it is not listed (or its factor is 0, which is falsy). */
  function ActivityFactor(level: ActivityLevel, activities: seq<CustomActivity>): real
  {
    match level
    case Preset(key) => DefaultFactor(key)
    case Custom(id) =>
      match FindById(activities, id)
      case Some(i) => if activities[i].factor != 0.0 then activities[i].factor else FallbackFactor
      case None => FallbackFactor
  }

  /** The category ladder on the unrounded kcal TDEE. */
  function TdeeCategory(tdee: real): EnergyNeeds
  {
    if tdee < 1500.0 then LowNeeds
    else if tdee < 2000.0 then ModerateNeeds
    else if tdee < 2500.0 then HighNeeds
    else VeryHighNeeds
  }

  /** The stored result for a kcal BMR and an activity factor: TDEE is their product; both are converted to the caller's energy unit
      before rounding, and the category is taken from the unrounded kcal TDEE. */
  function TdeeFrom(bmr: real, factor: real, unit: EnergyUnit): TdeeResult
  {
    TdeeResult(Round(InEnergyUnit(bmr, unit)), Round(InEnergyUnit(bmr * factor, unit)), TdeeCategory(bmr * factor))
  }

  /** The result for filled-in fields in the caller's units and the selected level's activity factor: the
      BMR is computed as in the BMR calculator and the TDEE is that BMR times the factor. */
  function TdeeOf(w: real, h: real, age: int, gender: Gender, factor: real, prefs: UnitPreference): TdeeResult
  {
    TdeeFrom(MifflinStJeor(gender, InKg(w, prefs.weightUnit), InCm(h, prefs.heightUnit), age as real), factor,
             prefs.energyUnit)
  }

  /** TdeeFrom in terms of the handler's kcal TDEE. */
  lemma TdeeFromUnfolds(bmr: real, factor: real, unit: EnergyUnit, tdee: real)
    requires tdee == bmr * factor
    ensures TdeeFrom(bmr, factor, unit)
         == TdeeResult(Round(InEnergyUnit(bmr, unit)), Round(InEnergyUnit(tdee, unit)), TdeeCategory(tdee))
  {
  }

  /** TdeeOf in terms of the handler's kcal BMR. */
  lemma TdeeOfUnfolds(w: real, h: real, age: int, gender: Gender, factor: real, prefs: UnitPreference, bmr: real)
    requires bmr == MifflinStJeor(gender, InKg(w, prefs.weightUnit), InCm(h, prefs.heightUnit), age as real)
    ensures TdeeOf(w, h, age, gender, factor, prefs) == TdeeFrom(bmr, factor, prefs.energyUnit)
  {
  }

  /** A custom activity the add form accepts: a non-empty name and a factor from 1.0 to 3.0. */
  predicate AcceptedActivity(a: CustomActivity)
  {
    a.name != "" && 1.0 <= a.factor <= 3.0
  }

  /** Array.filter keeping the activities whose id differs. */
  function RemoveById(activities: seq<CustomActivity>, id: string): (r: seq<CustomActivity>)
    ensures |r| <= |activities|
    ensures forall k :: 0 <= k < |r| ==> r[k].id != id && r[k] in activities
    ensures forall j :: 0 <= j < |activities| && activities[j].id != id ==> activities[j] in r
  {
    if activities == [] then []
    else if activities[0].id != id then [activities[0]] + RemoveById(activities[1..], id)
    else RemoveById(activities[1..], id)
  }

  /** The TDEE component: its form fields, the custom-activity list and its result slot. */
  class TdeeCalculator {
    var age: Option<int>
    var gender: Option<Gender>
    var weight: Option<real>
    var height: Option<real>
    var activityLevel: Option<ActivityLevel>
    var customActivityName: string
    var customActivityFactor: Option<real>
    var customActivities: seq<CustomActivity>
    var showCustomForm: bool
    var result: Option<TdeeResult>

    /** Every listed custom activity passed the add form's checks. */
    ghost predicate Valid()
      reads this
    {
      forall k :: 0 <= k < |customActivities| ==> AcceptedActivity(customActivities[k])
    }

    constructor ()
      ensures Valid()
      ensures age == None && gender == None && weight == None && height == None && activityLevel == None
      ensures customActivityName == "" && customActivityFactor == None && customActivities == []
      ensures !showCustomForm && result == None
    {
      age, gender, weight, height, activityLevel := None, None, None, None, None;
      customActivityName, customActivityFactor, customActivities := "", None, [];
      showCustomForm := false;
      result := None;
    }

    /** calculateTDEE: with weight, height, age, gender or activity level missing it returns and the
        previous result stays; otherwise it stores BMR, TDEE and the category. */
    method CalculateTdee(prefs: UnitPreference)
      modifies this`result
      ensures !(Given(weight) && Given(height) && GivenInt(age) && gender.Some? && activityLevel.Some?) ==>
                result == old(result)
      ensures Given(weight) && Given(height) && GivenInt(age) && gender.Some? && activityLevel.Some? ==>
                result == Some(TdeeOf(weight.value, height.value, age.value, gender.value,
                                      ActivityFactor(activityLevel.value, customActivities), prefs))
    {
      if !Given(weight) || !Given(height) || !GivenInt(age) || gender.None? || activityLevel.None? {
        return;
      }
      var w, h, a, g := weight.value, height.value, age.value as real, gender.value;
      var weightKg := InKg(w, prefs.weightUnit);
      var heightCm := InCm(h, prefs.heightUnit);

      var bmr: real;
      if g == Male {
        bmr := 10.0 * weightKg + 6.25 * heightCm - 5.0 * a + 5.0;
      } else {
        bmr := 10.0 * weightKg + 6.25 * heightCm - 5.0 * a - 161.0;
      }
      assert bmr == MifflinStJeor(g, weightKg, heightCm, a);

      var activityFactor: real;
      match activityLevel.value {
        case Custom(customId) =>
          var found := FindById(customActivities, customId);
          if found.Some? && customActivities[found.value].factor != 0.0 {
            activityFactor := customActivities[found.value].factor;
          } else {
            activityFactor := FallbackFactor;
          }
        case Preset(key) =>
          activityFactor := DefaultFactor(key);
      }

      assert activityFactor == ActivityFactor(activityLevel.value, customActivities);
      var tdee := bmr * activityFactor;
      var category := TdeeCategory(tdee);
      var convertedBmr := InEnergyUnit(bmr, prefs.energyUnit);
      var convertedTdee := InEnergyUnit(tdee, prefs.energyUnit);
      TdeeOfUnfolds(w, h, age.value, g, activityFactor, prefs, bmr);
      TdeeFromUnfolds(bmr, activityFactor, prefs.energyUnit, tdee);
      result := Some(TdeeResult(Round(convertedBmr), Round(convertedTdee), category));
    }

    /** addCustomActivity: with a non-empty name and a factor from 1.0 to 3.0 it appends exactly one
        activity with the given fresh id, clears both form fields and hides the form; otherwise nothing
        changes. */
    method AddCustomActivity(newId: string)
      requires Valid()
      modifies this`customActivities, this`customActivityName, this`customActivityFactor, this`showCustomForm
      ensures Valid()
      ensures var accepted := old(customActivityName) != "" && old(customActivityFactor).Some? &&
                              1.0 <= old(customActivityFactor).value <= 3.0;
              if accepted then
                customActivities == old(customActivities) +
                                    [CustomActivity(newId, old(customActivityName), old(customActivityFactor).value)] &&
                customActivityName == "" && customActivityFactor == None && !showCustomForm
              else
                customActivities == old(customActivities) && customActivityName == old(customActivityName) &&
                customActivityFactor == old(customActivityFactor) && showCustomForm == old(showCustomForm)
    {
      if customActivityName != "" && customActivityFactor.Some? {
        var factor := customActivityFactor.value;
        if factor >= 1.0 && factor <= 3.0 {
          var newActivity := CustomActivity(newId, customActivityName, factor);
          customActivities := customActivities + [newActivity];
          customActivityName := "";
          customActivityFactor := None;
          showCustomForm := false;
        }
      }
    }

    /** removeCustomActivity: drops every activity with the id, keeping the others in order, and clears
        the selected level only when it was that activity. */
    method RemoveCustomActivity(id: string)
      requires Valid()
      modifies this`customActivities, this`activityLevel
      ensures Valid()
      ensures customActivities == RemoveById(old(customActivities), id)
      ensures activityLevel == if old(activityLevel) == Some(Custom(id)) then None else old(activityLevel)
    {
      customActivities := RemoveById(customActivities, id);
      if activityLevel == Some(Custom(id)) {
        activityLevel := None;
      }
    }
  }

  /** Filtering distributes over concatenation, so the kept activities stay in their original order. */
  lemma {:induction false} RemoveByIdConcat(a: seq<CustomActivity>, b: seq<CustomActivity>, id: string)
    ensures RemoveById(a + b, id) == RemoveById(a, id) + RemoveById(b, id)
  {
    if a == [] {
      assert a + b == b;
    } else {
      assert (a + b)[1..] == a[1..] + b;
      RemoveByIdConcat(a[1..], b, id);
    }
  }

  /** Removing an id that is not listed leaves the list unchanged; so removing twice is removing once. */
  lemma {:induction false} RemoveByIdAbsent(activities: seq<CustomActivity>, id: string)
    requires forall k :: 0 <= k < |activities| ==> activities[k].id != id
    ensures RemoveById(activities, id) == activities
  {
    if activities != [] {
      RemoveByIdAbsent(activities[1..], id);
    }
  }

  lemma RemoveByIdIdempotent(activities: seq<CustomActivity>, id: string)
    ensures RemoveById(RemoveById(activities, id), id) == RemoveById(activities, id)
  {
    RemoveByIdAbsent(RemoveById(activities, id), id);
  }

  /** After its removal a custom id is never found, so a level still naming it falls back to 1.2. */
  lemma RemovedIdFallsBack(activities: seq<CustomActivity>, id: string)
    ensures FindById(RemoveById(activities, id), id) == None
    ensures ActivityFactor(Custom(id), RemoveById(activities, id)) == FallbackFactor
  {
  }

  /** With every listed activity accepted by the form, every selectable factor lies in [1.0, 3.0]. */
  lemma ActivityFactorBounds(level: ActivityLevel, activities: seq<CustomActivity>)
    requires forall k :: 0 <= k < |activities| ==> AcceptedActivity(activities[k])
    ensures 1.0 <= ActivityFactor(level, activities) <= 3.0
    ensures level.Custom? && FindById(activities, level.id).Some? ==>
              ActivityFactor(level, activities) == activities[FindById(activities, level.id).value].factor
  {
  }

  /** The ladder in terms of the strict thresholds 1500, 2000 and 2500. */
  lemma TdeeCategoryThresholds(t: real)
    ensures NeedsLabel(TdeeCategory(t)) == "Low Energy Needs" <==> t < 1500.0
    ensures NeedsLabel(TdeeCategory(t)) == "Moderate Energy Needs" <==> 1500.0 <= t < 2000.0
    ensures NeedsLabel(TdeeCategory(t)) == "High Energy Needs" <==> 2000.0 <= t < 2500.0
    ensures NeedsLabel(TdeeCategory(t)) == "Very High Energy Needs" <==> 2500.0 <= t
  {
  }

  /** The TDEE calculator stores the BMR the BMR calculator stores for the same inputs, converted to the
      caller's energy unit before rounding. */
  lemma TdeeAgreesWithBmr(w: real, h: real, age: int, g: Gender, factor: real, prefs: UnitPreference)
    ensures prefs.energyUnit == Kcal ==>
              TdeeOf(w, h, age, g, factor, prefs).bmr == BmrOf(w, h, age, g, None, prefs).mifflinStJeor
  {
  }

  /** For a non-negative BMR and a factor of at least 1 the stored TDEE is at least the stored BMR, in
      either energy unit. */
  lemma TdeeAtLeastBmr(bmr: real, factor: real, unit: EnergyUnit)
    requires bmr >= 0.0 && factor >= 1.0
    ensures TdeeFrom(bmr, factor, unit).tdee >= TdeeFrom(bmr, factor, unit).bmr
  {
    var tdee := bmr * factor;
    ScaledUp(bmr, factor, tdee);
    TdeeFromUnfolds(bmr, factor, unit, tdee);
    RoundedEnergyMonotone(bmr, tdee, unit);
  }

  /** Multiplying a non-negative amount by a factor of at least one does not decrease it. */
  lemma ScaledUp(x: real, factor: real, product: real)
    requires x >= 0.0 && factor >= 1.0 && product == x * factor
    ensures x <= product
  {
    assert product - x == x * (factor - 1.0);
  }

  /** The rounded display in either energy unit keeps the order of two kcal amounts. */
  lemma RoundedEnergyMonotone(a: real, b: real, unit: EnergyUnit)
    requires a <= b
    ensures Round(InEnergyUnit(a, unit)) <= Round(InEnergyUnit(b, unit))
  {
    if a < b {
      InUnitsMonotone(a, b, Kg, Cm, unit);
    }
    RoundMonotone(InEnergyUnit(a, unit), InEnergyUnit(b, unit));
  }

  /** The maintenance offset shown for losing or gaining 0.5 kg a week. */
  function EnergyOffset(unit: EnergyUnit): real
  {
    if unit == KJ then 2092.0 else 500.0
  }

  /** The intake shown for weight loss, from the stored (already rounded) TDEE. */
  function LossIntake(tdee: int, unit: EnergyUnit): int
  {
    Round(tdee as real - EnergyOffset(unit))
  }

  /** The intake shown for weight gain. */
  function GainIntake(tdee: int, unit: EnergyUnit): int
  {
    Round(tdee as real + EnergyOffset(unit))
  }

  /** The kJ offset is exactly the kcal offset converted, and the two intakes lie the offset below and
      above the TDEE. */
  lemma MaintenanceOffsets(tdee: int, unit: EnergyUnit)
    ensures EnergyOffset(KJ) == ConvertEnergy(EnergyOffset(Kcal), Kcal, KJ)
    ensures unit == Kcal ==> LossIntake(tdee, unit) == tdee - 500 && GainIntake(tdee, unit) == tdee + 500
    ensures unit == KJ ==> LossIntake(tdee, unit) == tdee - 2092 && GainIntake(tdee, unit) == tdee + 2092
  {
    RoundOfInteger(tdee - 500);
    RoundOfInteger(tdee + 500);
    RoundOfInteger(tdee - 2092);
    RoundOfInteger(tdee + 2092);
  }
}
