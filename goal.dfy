/** The goal calculator: the energy budget for reaching a target weight within a number of weeks, the goal
    type and the safety warning. */
module Goal {

  import opened Common
  import opened JsMath
  import opened Units
  import Bmr
  import Tdee

  /** Energy content assumed for one kilogram of body fat, in kcal. */
  const KcalPerKg: real := 7700.0

  /** The activity factors the goal form offers, in the order of its select list. */
  const GoalActivityFactors: seq<real> := [1.2, 1.375, 1.55, 1.725, 1.9]

  /** What the component stores. Energies are in the caller's energy unit except the weekly deficit, which
      stays in kcal; targetDay is the day number of the target date. */
  datatype GoalResult = GoalResult(currentBmr: real, currentTdee: real, targetCalories: real,
                                   weeklyDeficit: real, dailyDeficit: real, timeToGoal: real, targetDay: real)

  /** The guard of calculateGoal: all five numeric inputs positive. */
  predicate Accepted(currentWeight: real, targetWeight: real, height: real, age: real, timeframe: real)
  {
    currentWeight > 0.0 && targetWeight > 0.0 && height > 0.0 && age > 0.0 && timeframe > 0.0
  }

  /** The budget from a BMR in kcal, an activity factor, the weight to lose in kg (negative to gain) and a
      positive number of weeks, starting on day `today`. */
  function GoalFrom(bmr: real, activity: real, weightDifference: real, timeframe: real, unit: EnergyUnit,
                    today: int): GoalResult
    requires timeframe > 0.0
  {
    var tdee := bmr * activity;
    var weeklyDeficit := weightDifference * KcalPerKg / timeframe;
    var dailyDeficit := weeklyDeficit / 7.0;
    var targetCalories := tdee - dailyDeficit;
    GoalResult(InEnergyUnit(bmr, unit), InEnergyUnit(tdee, unit), InEnergyUnit(targetCalories, unit),
               weeklyDeficit, InEnergyUnit(Abs(dailyDeficit), unit), timeframe, today as real + timeframe * 7.0)
  }

  /** GoalFrom in terms of the handler's intermediate values. */
  lemma GoalFromSteps(bmr: real, activity: real, weightDifference: real, timeframe: real, unit: EnergyUnit,
                      today: int, tdee: real, weeklyDeficit: real, dailyDeficit: real, targetCalories: real)
    requires timeframe > 0.0
    requires tdee == bmr * activity && weeklyDeficit == weightDifference * 7700.0 / timeframe
    requires dailyDeficit == weeklyDeficit / 7.0 && targetCalories == tdee - dailyDeficit
    ensures GoalFrom(bmr, activity, weightDifference, timeframe, unit, today)
         == GoalResult(InEnergyUnit(bmr, unit), InEnergyUnit(tdee, unit), InEnergyUnit(targetCalories, unit),
                       weeklyDeficit, InEnergyUnit(Abs(dailyDeficit), unit), timeframe, today as real + timeframe * 7.0)
  {
  }

  /** What calculateGoal stores for the inputs: null unless all five numeric inputs are positive. */
  function GoalOf(currentWeight: real, targetWeight: real, height: real, age: real, gender: Gender,
                  activity: real, timeframe: real, prefs: UnitPreference, today: int): Option<GoalResult>
  {
    if Accepted(currentWeight, targetWeight, height, age, timeframe) then
      var weightKg := InKg(currentWeight, prefs.weightUnit);
      var heightCm := InCm(height, prefs.heightUnit);
      Some(GoalFrom(Bmr.MifflinStJeor(gender, weightKg, heightCm, age), activity,
                    weightKg - InKg(targetWeight, prefs.weightUnit), timeframe, prefs.energyUnit, today))
    else None
  }

  /** GoalOf, for accepted inputs, in terms of the handler's kcal BMR and weight difference. */
  lemma GoalOfUnfolds(currentWeight: real, targetWeight: real, height: real, age: real, gender: Gender,
                      activity: real, timeframe: real, prefs: UnitPreference, today: int,
                      bmr: real, weightDifference: real)
    requires Accepted(currentWeight, targetWeight, height, age, timeframe)
    requires bmr == Bmr.MifflinStJeor(gender, InKg(currentWeight, prefs.weightUnit), InCm(height, prefs.heightUnit), age)
    requires weightDifference == InKg(currentWeight, prefs.weightUnit) - InKg(targetWeight, prefs.weightUnit)
    ensures GoalOf(currentWeight, targetWeight, height, age, gender, activity, timeframe, prefs, today)
         == Some(GoalFrom(bmr, activity, weightDifference, timeframe, prefs.energyUnit, today))
  {
  }

  datatype GoalType = Loss | Gain | Maintain

  /** The two warnings the component can show; `SafetyWarning` says which one applies. */
  datatype Warning = AggressiveLoss | LowCalories

  /** The fastest safe weekly loss: 1 kg or 2.2 lbs. */
  function MaxSafeWeeklyLoss(unit: WeightUnit): real
  {
    if unit == Kg then 1.0 else 2.2
  }

  /** The low-calorie threshold: 1200 kcal, or the literal 5000 in kJ mode. */
  function LowCalorieThreshold(unit: EnergyUnit): real
  {
    if unit == KJ then 5000.0 else 1200.0
  }

  /** change / timeframe > limit for a non-negative change, as floating point evaluates it: a zero
      timeframe gives Infinity for a positive change and NaN (never greater) for a zero one. */
  predicate ExceedsWeeklyRate(change: real, timeframe: real, limit: real)
  {
    if timeframe == 0.0 then change > 0.0 else change / timeframe > limit
  }

  /** The goal component: its seven inputs with their initial values, and its result slot. */
  class GoalCalculator {
    var currentWeight: real
    var targetWeight: real
    var height: real
    var age: real
    var gender: Gender
    var activityLevel: real
    var timeframe: real
    var result: Option<GoalResult>

    constructor ()
      ensures currentWeight == 70.0 && targetWeight == 65.0 && height == 170.0 && age == 30.0
      ensures gender == Male && activityLevel == 1.55 && timeframe == 12.0 && result == None
    {
      currentWeight, targetWeight, height, age := 70.0, 65.0, 170.0, 30.0;
      gender, activityLevel, timeframe := Male, 1.55, 12.0;
      result := None;
    }

    /** calculateGoal: with all five numeric inputs positive it stores the budget, otherwise it resets the
        result to null. `today` is the current day number. */
    method CalculateGoal(prefs: UnitPreference, today: int)
      modifies this`result
      ensures result == GoalOf(currentWeight, targetWeight, height, age, gender, activityLevel, timeframe,
                               prefs, today)
      ensures result.Some? <==> Accepted(currentWeight, targetWeight, height, age, timeframe)
    {
      if currentWeight > 0.0 && targetWeight > 0.0 && height > 0.0 && age > 0.0 && timeframe > 0.0 {
        var weightKg := InKg(currentWeight, prefs.weightUnit);
        var targetWeightKg := InKg(targetWeight, prefs.weightUnit);
        var heightCm := InCm(height, prefs.heightUnit);

        var bmr := if gender == Male then 10.0 * weightKg + 6.25 * heightCm - 5.0 * age + 5.0
                   else 10.0 * weightKg + 6.25 * heightCm - 5.0 * age - 161.0;
        assert bmr == Bmr.MifflinStJeor(gender, weightKg, heightCm, age);
        var tdee := bmr * activityLevel;

        var weightDifference := weightKg - targetWeightKg;
        var totalCaloriesNeeded := weightDifference * 7700.0;
        var weeklyDeficit := totalCaloriesNeeded / timeframe;
        var dailyDeficit := weeklyDeficit / 7.0;
        var targetCalories := tdee - dailyDeficit;
        var targetDay := today as real + timeframe * 7.0;

        var convertedBmr := InEnergyUnit(bmr, prefs.energyUnit);
        var convertedTdee := InEnergyUnit(tdee, prefs.energyUnit);
        var convertedTargetCalories := InEnergyUnit(targetCalories, prefs.energyUnit);
        var convertedDailyDeficit := InEnergyUnit(Abs(dailyDeficit), prefs.energyUnit);
        GoalOfUnfolds(currentWeight, targetWeight, height, age, gender, activityLevel, timeframe, prefs, today,
                      bmr, weightDifference);
        GoalFromSteps(bmr, activityLevel, weightDifference, timeframe, prefs.energyUnit, today,
                      tdee, weeklyDeficit, dailyDeficit, targetCalories);
        result := Some(GoalResult(convertedBmr, convertedTdee, convertedTargetCalories, weeklyDeficit,
                                  convertedDailyDeficit, timeframe, targetDay));
      } else {
        result := None;
      }
    }

    /** getGoalType: compares the two weights as entered, in the caller's unit. */
    function GoalType(): GoalType
      reads this
    {
      if currentWeight > targetWeight then Loss
      else if currentWeight < targetWeight then Gain
      else Maintain
    }

    /** getSafetyWarning: no warning without a result; the aggressive-loss warning for a loss goal faster
        than the safe weekly rate comes first; then the low-calorie warning. It reads the current inputs,
        not those the result was computed from. */
    function SafetyWarning(prefs: UnitPreference): Option<Warning>
      reads this
    {
      if result.None? then None
      else if GoalType() == Loss && ExceedsWeeklyRate(Abs(currentWeight - targetWeight), timeframe,
                                                      MaxSafeWeeklyLoss(prefs.weightUnit)) then
        Some(AggressiveLoss)
      else if result.value.targetCalories < LowCalorieThreshold(prefs.energyUnit) then Some(LowCalories)
      else None
    }
  }

  /** A stored result always exists exactly for positive inputs, and it holds the Mifflin-St Jeor BMR of the
      converted body, the TDEE as BMR times the activity factor, and a target that is the TDEE less the daily
      deficit; the weekly deficit spread over the timeframe is the energy of the weight change in kcal. */
  lemma BudgetBalances(cw: real, tw: real, h: real, age: real, g: Gender, activity: real, timeframe: real,
                       prefs: UnitPreference, today: int)
    ensures GoalOf(cw, tw, h, age, g, activity, timeframe, prefs, today).Some? <==> Accepted(cw, tw, h, age, timeframe)
    ensures Accepted(cw, tw, h, age, timeframe) ==>
              var r := GoalOf(cw, tw, h, age, g, activity, timeframe, prefs, today).value;
              var wKg := InKg(cw, prefs.weightUnit);
              var tKg := InKg(tw, prefs.weightUnit);
              var bmr := Bmr.MifflinStJeor(g, wKg, InCm(h, prefs.heightUnit), age);
              r.currentBmr == InEnergyUnit(bmr, prefs.energyUnit) &&
              r.currentTdee == InEnergyUnit(bmr * activity, prefs.energyUnit) &&
              r.weeklyDeficit * timeframe == (wKg - tKg) * KcalPerKg &&
              r.targetCalories == InEnergyUnit(bmr * activity - r.weeklyDeficit / 7.0, prefs.energyUnit) &&
              r.timeToGoal == timeframe && r.targetDay == today as real + 7.0 * timeframe
  {
  }

  /** Equal current and target weights need no deficit: the weekly and daily deficits are 0 and the target
      is the TDEE, and the goal type is Maintain. */
  lemma EqualWeightsMaintain(cw: real, h: real, age: real, g: Gender, activity: real, timeframe: real,
                             prefs: UnitPreference, today: int)
    requires Accepted(cw, cw, h, age, timeframe)
    ensures var r := GoalOf(cw, cw, h, age, g, activity, timeframe, prefs, today).value;
            r.weeklyDeficit == 0.0 && r.dailyDeficit == 0.0 && r.targetCalories == r.currentTdee
  {
    var r := GoalOf(cw, cw, h, age, g, activity, timeframe, prefs, today).value;
    ConvertMonotone(0.0, 0.0, Kg, Kg, Cm, Cm, Kcal, prefs.energyUnit);
  }

  /** The stored daily deficit is never negative, in either energy unit. */
  lemma DailyDeficitNonNegative(bmr: real, activity: real, weightDifference: real, timeframe: real,
                                unit: EnergyUnit, today: int)
    requires timeframe > 0.0
    ensures GoalFrom(bmr, activity, weightDifference, timeframe, unit, today).dailyDeficit >= 0.0
  {
    var weekly := weightDifference * KcalPerKg / timeframe;
    var d := Abs(weekly / 7.0);
    if d > 0.0 {
      ConvertMonotone(d, d, Kg, Kg, Cm, Cm, Kcal, unit);
    }
  }

  /** For a positive timeframe the weekly deficit has the sign of the weight to lose, and the target lies
      below the TDEE exactly for a loss and above it exactly for a gain. */
  lemma GoalFromSigns(bmr: real, activity: real, weightDifference: real, timeframe: real, unit: EnergyUnit,
                      today: int)
    requires timeframe > 0.0
    ensures var r := GoalFrom(bmr, activity, weightDifference, timeframe, unit, today);
            (r.weeklyDeficit > 0.0 <==> weightDifference > 0.0) && (r.weeklyDeficit < 0.0 <==> weightDifference < 0.0) &&
            (r.targetCalories < r.currentTdee <==> weightDifference > 0.0) &&
            (r.targetCalories > r.currentTdee <==> weightDifference < 0.0)
  {
    var tdee := bmr * activity;
    var weekly := weightDifference * KcalPerKg / timeframe;
    GoalFromSteps(bmr, activity, weightDifference, timeframe, unit, today, tdee, weekly, weekly / 7.0,
                  tdee - weekly / 7.0);
    assert weekly * timeframe == weightDifference * KcalPerKg;
    if weekly > 0.0 {
      assert weekly * timeframe > 0.0;
      InUnitsMonotone(tdee - weekly / 7.0, tdee, Kg, Cm, unit);
    } else if weekly < 0.0 {
      assert (-weekly) * timeframe > 0.0;
      InUnitsMonotone(tdee, tdee - weekly / 7.0, Kg, Cm, unit);
    }
  }

  /** The sign of the deficit follows the goal type: comparing the weights in the caller's unit, as the goal
      type does, agrees with comparing them in kilograms, as the deficit does. A loss goal has a positive
      weekly deficit and a target below the TDEE, a gain goal the reverse. */
  lemma DeficitFollowsGoalType(cw: real, tw: real, h: real, age: real, g: Gender, activity: real,
                               timeframe: real, prefs: UnitPreference, today: int)
    requires Accepted(cw, tw, h, age, timeframe)
    ensures var r := GoalOf(cw, tw, h, age, g, activity, timeframe, prefs, today).value;
            (r.weeklyDeficit > 0.0 <==> cw > tw) && (r.weeklyDeficit < 0.0 <==> cw < tw) &&
            (r.targetCalories < r.currentTdee <==> cw > tw) && (r.targetCalories > r.currentTdee <==> cw < tw)
  {
    var wKg := InKg(cw, prefs.weightUnit);
    var tKg := InKg(tw, prefs.weightUnit);
    if cw < tw { InUnitsMonotone(cw, tw, prefs.weightUnit, prefs.heightUnit, prefs.energyUnit); }
    if tw < cw { InUnitsMonotone(tw, cw, prefs.weightUnit, prefs.heightUnit, prefs.energyUnit); }
    var bmr := Bmr.MifflinStJeor(g, wKg, InCm(h, prefs.heightUnit), age);
    GoalOfUnfolds(cw, tw, h, age, g, activity, timeframe, prefs, today, bmr, wKg - tKg);
    GoalFromSigns(bmr, activity, wKg - tKg, timeframe, prefs.energyUnit, today);
  }

  /** Exactly one goal type holds, decided by comparing the weights as entered. */
  lemma GoalTypeExclusive(c: GoalCalculator)
    ensures c.GoalType() == Loss <==> c.currentWeight > c.targetWeight
    ensures c.GoalType() == Gain <==> c.currentWeight < c.targetWeight
    ensures c.GoalType() == Maintain <==> c.currentWeight == c.targetWeight
  {
  }

  /** The complete behaviour of the warning: the aggressive-loss warning exactly for a stored result, a loss
      goal and a weekly change above the safe rate; the low-calorie warning exactly when that does not hold
      and the stored target is below the threshold; otherwise none. */
  lemma SafetyWarningCases(c: GoalCalculator, prefs: UnitPreference)
    ensures var aggressive := c.result.Some? && c.currentWeight > c.targetWeight &&
                              ExceedsWeeklyRate(c.currentWeight - c.targetWeight, c.timeframe,
                                                MaxSafeWeeklyLoss(prefs.weightUnit));
            (c.SafetyWarning(prefs) == Some(AggressiveLoss) <==> aggressive) &&
            (c.SafetyWarning(prefs) == Some(LowCalories) <==>
               !aggressive && c.result.Some? && c.result.value.targetCalories < LowCalorieThreshold(prefs.energyUnit)) &&
            (c.result.None? ==> c.SafetyWarning(prefs) == None)
  {
    if c.currentWeight > c.targetWeight {
      assert Abs(c.currentWeight - c.targetWeight) == c.currentWeight - c.targetWeight;
    }
  }

  /** The aggressive-loss warning never fires for a gain or a maintenance goal, however fast. */
  lemma NoAggressiveWarningUnlessLoss(c: GoalCalculator, prefs: UnitPreference)
    requires c.currentWeight <= c.targetWeight
    ensures c.SafetyWarning(prefs) != Some(AggressiveLoss)
  {
  }

  /** The kJ threshold is a literal and not 1200 kcal converted (5020.8 kJ): a target between
      5000 / 4.184 (about 1195 kcal) and 1200 kcal warns in kcal mode but not in kJ mode. */
  lemma LowCalorieThresholdsDisagree(kcal: real)
    requires 5000.0 / 4.184 <= kcal < 1200.0
    ensures kcal < LowCalorieThreshold(Kcal)
    ensures !(InEnergyUnit(kcal, KJ) < LowCalorieThreshold(KJ))
    ensures InEnergyUnit(1200.0, KJ) == 5020.8
  {
    ConvertFactors(kcal);
    ConvertFactors(1200.0);
  }

  /** The activity factors of the goal form are the five preset factors of the TDEE calculator. */
  lemma ActivityFactorsMatchTdee()
    ensures GoalActivityFactors == [Tdee.DefaultFactor(Tdee.Sedentary), Tdee.DefaultFactor(Tdee.Light),
                                    Tdee.DefaultFactor(Tdee.Moderate), Tdee.DefaultFactor(Tdee.Active),
                                    Tdee.DefaultFactor(Tdee.VeryActive)]
  {
  }

  /** The initial inputs (70 to 65 kg, 170 cm, 30 years, male, factor 1.55, 12 weeks, metric kcal) give a BMR
      of 1617.5 kcal, a TDEE of 2507.125 kcal, a weekly deficit of 3208.33 kcal (38500 / 12) and a target
      of 2048.79 kcal. */
  lemma DefaultInputsExample(today: int)
    ensures GoalOf(70.0, 65.0, 170.0, 30.0, Male, 1.55, 12.0, DefaultPreference, today)
         == Some(GoalResult(1617.5, 2507.125, 2507.125 - 38500.0 / 84.0, 38500.0 / 12.0, 38500.0 / 84.0, 12.0,
                            today as real + 84.0))
  {
  }
}
