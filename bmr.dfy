/** The BMR calculator: three basal-metabolic-rate equations, the category ladder, the calories per
    activity level and the component's calculate handler. */
module Bmr {

  import opened Common
  import opened JsMath
  import opened Units

  /** Mifflin-St Jeor, kcal/day, from kilograms, centimetres and years. The TDEE and goal calculators
      compute the same expression. */
  function MifflinStJeor(gender: Gender, weightKg: real, heightCm: real, age: real): real
  {
    if gender == Male then 10.0 * weightKg + 6.25 * heightCm - 5.0 * age + 5.0
    else 10.0 * weightKg + 6.25 * heightCm - 5.0 * age - 161.0
  }

  /** Revised Harris-Benedict, kcal/day. */
  function HarrisBenedict(gender: Gender, weightKg: real, heightCm: real, age: real): real
  {
    if gender == Male then 88.362 + 13.397 * weightKg + 4.799 * heightCm - 5.677 * age
    else 447.593 + 9.247 * weightKg + 3.098 * heightCm - 4.33 * age
  }

  /** Katch-McArdle, kcal/day, from the lean body mass; computed only for a body fat strictly between 0
      and 50 percent (a missing field, NaN or 0 is skipped by the same test). */
  function KatchMcArdle(weightKg: real, bodyFat: Option<real>): Option<real>
  {
    if Given(bodyFat) && bodyFat.value > 0.0 && bodyFat.value < 50.0 then
      var leanBodyMass := weightKg * (1.0 - bodyFat.value / 100.0);
      Some(370.0 + 21.6 * leanBodyMass)
    else None
  }

  /** The category ladder on the unrounded Mifflin-St Jeor value. */
  function BmrCategory(mifflin: real): string
  {
    if mifflin < 1200.0 then "Low Metabolic Rate"
    else if mifflin < 1500.0 then "Below Average"
    else if mifflin < 1800.0 then "Average"
    else if mifflin < 2200.0 then "Above Average"
    else "High Metabolic Rate"
  }

  /** Calories per day at the five activity levels. */
  datatype DailyCalories = DailyCalories(sedentary: int, light: int, moderate: int, active: int, veryActive: int)

  /** What the component stores. */
  datatype BmrResult = BmrResult(mifflinStJeor: int, harrisBenedict: int, katchMcArdle: Option<int>,
                                 category: string, dailyCalories: DailyCalories)

  /** The calories per activity level: the unrounded Mifflin-St Jeor value times each factor, rounded. */
  function DailyCaloriesOf(mifflin: real): DailyCalories
  {
    DailyCalories(Round(mifflin * 1.2), Round(mifflin * 1.375), Round(mifflin * 1.55),
                  Round(mifflin * 1.725), Round(mifflin * 1.9))
  }

  /** The stored Katch-McArdle value: rounded, and absent when the equation was skipped or gave 0
      (the component tests the value for truthiness). */
  function StoredKatchMcArdle(km: Option<real>): Option<int>
  {
    if km.Some? && km.value != 0.0 then Some(Round(km.value)) else None
  }

  /** The result for filled-in fields in the caller's units. */
  function BmrOf(w: real, h: real, age: int, gender: Gender, bodyFat: Option<real>, prefs: UnitPreference): BmrResult
  {
    var weightKg := InKg(w, prefs.weightUnit);
    var heightCm := InCm(h, prefs.heightUnit);
    var mifflin := MifflinStJeor(gender, weightKg, heightCm, age as real);
    var harris := HarrisBenedict(gender, weightKg, heightCm, age as real);
    BmrResult(Round(mifflin), Round(harris), StoredKatchMcArdle(KatchMcArdle(weightKg, bodyFat)),
              BmrCategory(mifflin), DailyCaloriesOf(mifflin))
  }

  /** The BMR component: its five form fields and its result slot. */
  class BmrCalculator {
    var age: Option<int>
    var gender: Option<Gender>
    var weight: Option<real>
    var height: Option<real>
    var bodyFat: Option<real>
    var result: Option<BmrResult>

    constructor ()
      ensures age == None && gender == None && weight == None && height == None && bodyFat == None
      ensures result == None
    {
      age, gender, weight, height, bodyFat := None, None, None, None, None;
      result := None;
    }

    /** calculateBMR: with weight, height, age or gender missing it returns and the previous result
        stays; otherwise it stores the three equations, the category and the calories per level. */
    method CalculateBmr(prefs: UnitPreference)
      modifies this`result
      ensures !(Given(weight) && Given(height) && GivenInt(age) && gender.Some?) ==> result == old(result)
      ensures Given(weight) && Given(height) && GivenInt(age) && gender.Some? ==>
                result == Some(BmrOf(weight.value, height.value, age.value, gender.value, bodyFat, prefs))
    {
      if !Given(weight) || !Given(height) || !GivenInt(age) || gender.None? {
        return;
      }
      var w, h, a, g := weight.value, height.value, age.value as real, gender.value;
      var weightKg := InKg(w, prefs.weightUnit);
      var heightCm := InCm(h, prefs.heightUnit);

      var mifflinStJeor: real;
      if g == Male {
        mifflinStJeor := 10.0 * weightKg + 6.25 * heightCm - 5.0 * a + 5.0;
      } else {
        mifflinStJeor := 10.0 * weightKg + 6.25 * heightCm - 5.0 * a - 161.0;
      }
      assert mifflinStJeor == MifflinStJeor(g, weightKg, heightCm, a);

      var harrisBenedict: real;
      if g == Male {
        harrisBenedict := 88.362 + 13.397 * weightKg + 4.799 * heightCm - 5.677 * a;
      } else {
        harrisBenedict := 447.593 + 9.247 * weightKg + 3.098 * heightCm - 4.33 * a;
      }
      assert harrisBenedict == HarrisBenedict(g, weightKg, heightCm, a);

      var bf := bodyFat;
      var katchMcArdle: Option<real> := None;
      if Given(bf) && bf.value > 0.0 && bf.value < 50.0 {
        var leanBodyMass := weightKg * (1.0 - bf.value / 100.0);
        katchMcArdle := Some(370.0 + 21.6 * leanBodyMass);
        assert KatchMcArdle(weightKg, bf).Some?;
        assert KatchMcArdle(weightKg, bf).value == 370.0 + 21.6 * leanBodyMass;
      }
      assert katchMcArdle == KatchMcArdle(weightKg, bf);

      var category := BmrCategory(mifflinStJeor);
      var dailyCalories := DailyCaloriesOf(mifflinStJeor);
      result := Some(BmrResult(Round(mifflinStJeor), Round(harrisBenedict), StoredKatchMcArdle(katchMcArdle),
                               category, dailyCalories));
    }
  }

  /** With identical inputs the male Mifflin-St Jeor value is 166 kcal above the female one. */
  lemma MifflinSexGap(weightKg: real, heightCm: real, age: real)
    ensures MifflinStJeor(Male, weightKg, heightCm, age) - MifflinStJeor(Female, weightKg, heightCm, age) == 166.0
  {
  }

  /** Both equations rise with weight and height and fall with age. */
  lemma EquationsMonotone(g: Gender, w1: real, w2: real, h1: real, h2: real, a1: real, a2: real)
    requires w1 <= w2 && h1 <= h2 && a2 <= a1
    ensures MifflinStJeor(g, w1, h1, a1) <= MifflinStJeor(g, w2, h2, a2)
    ensures HarrisBenedict(g, w1, h1, a1) <= HarrisBenedict(g, w2, h2, a2)
  {
  }

  /** Katch-McArdle is present exactly for a body fat strictly between 0 and 50; it is then the lean-mass
      equation, which exceeds 370 for a positive weight. */
  lemma KatchMcArdleDomain(weightKg: real, bodyFat: Option<real>)
    ensures KatchMcArdle(weightKg, bodyFat).Some? <==> bodyFat.Some? && 0.0 < bodyFat.value < 50.0
    ensures KatchMcArdle(weightKg, bodyFat).Some? ==>
              KatchMcArdle(weightKg, bodyFat).value == 370.0 + 21.6 * (weightKg * (1.0 - bodyFat.value / 100.0))
    ensures weightKg > 0.0 && KatchMcArdle(weightKg, bodyFat).Some? ==> KatchMcArdle(weightKg, bodyFat).value > 370.0
  {
    if bodyFat.Some? && 0.0 < bodyFat.value < 50.0 {
      var leanFraction := 1.0 - bodyFat.value / 100.0;
      assert Given(bodyFat);
      assert KatchMcArdle(weightKg, bodyFat).Some?;
      assert KatchMcArdle(weightKg, bodyFat).value == 370.0 + 21.6 * (weightKg * leanFraction);
      if weightKg > 0.0 {
        PositiveProduct(weightKg, leanFraction);
      }
    }
  }

  lemma PositiveProduct(a: real, b: real)
    requires a > 0.0 && b > 0.0
    ensures a * b > 0.0
  {
  }

  /** For a positive weight and a body fat strictly between 0 and 50 the stored result carries a
      Katch-McArdle value of at least 370; outside that body-fat range it carries none. */
  lemma StoredKatchMcArdlePresence(w: real, h: real, age: int, g: Gender, bodyFat: Option<real>, prefs: UnitPreference)
    ensures !(bodyFat.Some? && 0.0 < bodyFat.value < 50.0) ==> BmrOf(w, h, age, g, bodyFat, prefs).katchMcArdle == None
    ensures w > 0.0 && bodyFat.Some? && 0.0 < bodyFat.value < 50.0 ==>
              BmrOf(w, h, age, g, bodyFat, prefs).katchMcArdle.Some? &&
              BmrOf(w, h, age, g, bodyFat, prefs).katchMcArdle.value >= 370
  {
    var weightKg := InKg(w, prefs.weightUnit);
    KatchMcArdleDomain(weightKg, bodyFat);
    if w > 0.0 {
      assert weightKg > 0.0;
    }
    var km := KatchMcArdle(weightKg, bodyFat);
    if w > 0.0 && km.Some? {
      RoundMonotone(370.0, km.value);
      RoundOfInteger(370);
    }
  }

  /** The ladder's five labels in terms of the strict thresholds 1200, 1500, 1800 and 2200. */
  lemma BmrCategoryThresholds(m: real)
    ensures BmrCategory(m) == "Low Metabolic Rate" <==> m < 1200.0
    ensures BmrCategory(m) == "Below Average" <==> 1200.0 <= m < 1500.0
    ensures BmrCategory(m) == "Average" <==> 1500.0 <= m < 1800.0
    ensures BmrCategory(m) == "Above Average" <==> 1800.0 <= m < 2200.0
    ensures BmrCategory(m) == "High Metabolic Rate" <==> 2200.0 <= m
  {
  }

  /** For a non-negative BMR the calories never decrease from one activity level to the next. */
  lemma DailyCaloriesOrdered(m: real)
    requires m >= 0.0
    ensures DailyCaloriesOf(m).sedentary <= DailyCaloriesOf(m).light <= DailyCaloriesOf(m).moderate
    ensures DailyCaloriesOf(m).moderate <= DailyCaloriesOf(m).active <= DailyCaloriesOf(m).veryActive
  {
    RoundMonotone(m * 1.2, m * 1.375);
    RoundMonotone(m * 1.375, m * 1.55);
    RoundMonotone(m * 1.55, m * 1.725);
    RoundMonotone(m * 1.725, m * 1.9);
  }

  /** A male of 70 kg, 170 cm and 30 years: Mifflin-St Jeor 1617.5, stored as 1618, category "Average";
      Harris-Benedict 1671.672, stored as 1672. */
  lemma BmrExample()
    ensures BmrOf(70.0, 170.0, 30, Male, None, DefaultPreference)
         == BmrResult(1618, 1672, None, "Average", DailyCalories(1941, 2224, 2507, 2790, 3073))
  {
    assert MifflinStJeor(Male, 70.0, 170.0, 30.0) == 1617.5;
    assert HarrisBenedict(Male, 70.0, 170.0, 30.0) == 1671.672;
    RoundUnique(1617.5, 1618);
    RoundUnique(1671.672, 1672);
    RoundUnique(1617.5 * 1.2, 1941);
    RoundUnique(1617.5 * 1.375, 2224);
    RoundUnique(1617.5 * 1.55, 2507);
    RoundUnique(1617.5 * 1.725, 2790);
    RoundUnique(1617.5 * 1.9, 3073);
  }

  /** The category comes from the unrounded value: 1199.6 is stored as 1200 but is "Low Metabolic Rate". */
  lemma CategoryBeforeRounding()
    ensures Round(1199.6) == 1200 && BmrCategory(1199.6) == "Low Metabolic Rate"
  {
    RoundUnique(1199.6, 1200);
  }
}
