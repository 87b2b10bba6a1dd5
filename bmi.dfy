/** The BMI calculator: the category table, the formula and the component's calculate handler. */
module Bmi {

  import opened Common
  import opened JsMath
  import opened Units
  import opened Classifier

  /** The BMI category table, in the order the lookup scans it. */
  const BmiCategories: seq<CategoryRange> := [
    CategoryRange(0.0, 18.4, "Underweight", "Below normal weight"),
    CategoryRange(18.5, 24.9, "Normal Weight", "Healthy weight range"),
    CategoryRange(25.0, 29.9, "Overweight", "Above normal weight"),
    CategoryRange(30.0, 100.0, "Obese", "Significantly above normal weight")
  ]

  /** What the component stores: the BMI rounded to one decimal, its category and description. */
  datatype BmiResult = BmiResult(bmi: real, category: string, description: string)

  /** Body mass index in kg/m^2 from a weight in kilograms and a height in centimetres. */
  function BodyMassIndex(weightKg: real, heightCm: real): (r: real)
    requires heightCm != 0.0
    ensures r * ((heightCm / 100.0) * (heightCm / 100.0)) == weightKg
  {
    var m := heightCm / 100.0;
    assert m * m > 0.0 by {
      if m < 0.0 { assert m * m == (-m) * (-m); }
    }
    weightKg / (m * m)
  }

  /** The result for filled-in weight and height in the caller's units: both are converted to
      kilograms and centimetres, the unrounded BMI is classified and only the stored value is rounded. */
  function BmiOf(w: real, h: real, prefs: UnitPreference): BmiResult
    requires h != 0.0
  {
    var bmi := BodyMassIndex(ConvertWeight(w, prefs.weightUnit, Kg), ConvertHeight(h, prefs.heightUnit, Cm));
    var (category, description) := Classification(BmiCategories, bmi);
    BmiResult(RoundTenth(bmi), category, description)
  }

  /** The BMI component: its two form fields and its result slot. */
  class BmiCalculator {
    var weight: Option<real>
    var height: Option<real>
    var result: Option<BmiResult>

    constructor ()
      ensures weight == None && height == None && result == None
    {
      weight := None;
      height := None;
      result := None;
    }

    /** calculateBMI: with a weight or height missing or zero it returns and the previous result stays;
        otherwise it stores the rounded BMI and the category of the unrounded BMI. */
    method CalculateBmi(prefs: UnitPreference)
      modifies this`result
      ensures !(Given(weight) && Given(height)) ==> result == old(result)
      ensures Given(weight) && Given(height) ==> result == Some(BmiOf(weight.value, height.value, prefs))
    {
      if !Given(weight) || !Given(height) {
        return;
      }
      var w := weight.value;
      var h := height.value;
      var weightInKg := ConvertWeight(w, prefs.weightUnit, Kg);
      var heightInCm := ConvertHeight(h, prefs.heightUnit, Cm);
      var bmi := BodyMassIndex(weightInKg, heightInCm);
      var category, description := Classify(BmiCategories, bmi);
      result := Some(BmiResult(RoundTenth(bmi), category, description));
    }
  }

  /** The table is ascending and no row is labelled "Unknown", so first match is the only match. */
  lemma BmiTableWellFormed()
    ensures Ascending(BmiCategories)
    ensures KnownLabels(BmiCategories)
  {
  }

  /** The complete behaviour of the lookup on the BMI table, including its gaps: values strictly between
      18.4 and 18.5, 24.9 and 25, 29.9 and 30, and values below 0 or above 100 match no row. */
  lemma BmiClassification(v: real)
    ensures Classification(BmiCategories, v).0 == "Underweight" <==> 0.0 <= v <= 18.4
    ensures Classification(BmiCategories, v).0 == "Normal Weight" <==> 18.5 <= v <= 24.9
    ensures Classification(BmiCategories, v).0 == "Overweight" <==> 25.0 <= v <= 29.9
    ensures Classification(BmiCategories, v).0 == "Obese" <==> 30.0 <= v <= 100.0
    ensures Classification(BmiCategories, v) == ("Unknown", "") <==>
            v < 0.0 || 18.4 < v < 18.5 || 24.9 < v < 25.0 || 29.9 < v < 30.0 || 100.0 < v
  {
    BmiTableWellFormed();
    UnknownIffNoRow(BmiCategories, v);
    var t := BmiCategories;
    if Contains(t[0], v) {
      AscendingMatchIsUnique(t, v, 0);
    } else if Contains(t[1], v) {
      AscendingMatchIsUnique(t, v, 1);
    } else if Contains(t[2], v) {
      AscendingMatchIsUnique(t, v, 2);
    } else if Contains(t[3], v) {
      AscendingMatchIsUnique(t, v, 3);
    }
  }

  /** A shared-looking boundary resolves by the table's own bounds: 18.5 is normal, 18.4 underweight. */
  lemma BmiBoundaries()
    ensures Classification(BmiCategories, 18.5).0 == "Normal Weight"
    ensures Classification(BmiCategories, 18.4).0 == "Underweight"
    ensures Classification(BmiCategories, 18.45) == ("Unknown", "")
    ensures Classification(BmiCategories, 24.95) == ("Unknown", "")
    ensures Classification(BmiCategories, 29.95) == ("Unknown", "")
  {
    BmiClassification(18.5);
    BmiClassification(18.4);
    BmiClassification(18.45);
    BmiClassification(24.95);
    BmiClassification(29.95);
  }

  /** 70 kg and 170 cm give a BMI of 24.2, "Normal Weight". */
  lemma BmiExample()
    ensures BmiOf(70.0, 170.0, DefaultPreference) == BmiResult(24.2, "Normal Weight", "Healthy weight range")
  {
    var bmi := BodyMassIndex(70.0, 170.0);
    assert 24.22 < bmi < 24.23;
    RoundUnique(bmi * 10.0, 242);
    BmiClassification(bmi);
    AscendingMatchIsUnique(BmiCategories, bmi, 1);
  }

  /** The category comes from the unrounded BMI: 24.96 is stored as 25.0 yet falls in the gap below
      "Overweight", and 18.46 is stored as 18.5 yet is not "Normal Weight". */
  lemma ClassifiedBeforeRounding()
    ensures BmiOf(24.96, 100.0, DefaultPreference) == BmiResult(25.0, "Unknown", "")
    ensures BmiOf(18.46, 100.0, DefaultPreference) == BmiResult(18.5, "Unknown", "")
  {
    assert BodyMassIndex(24.96, 100.0) == 24.96;
    assert BodyMassIndex(18.46, 100.0) == 18.46;
    RoundUnique(249.6, 250);
    RoundUnique(184.6, 185);
    BmiClassification(24.96);
    BmiClassification(18.46);
  }

  /** The result does not depend on the units the same body is entered in. */
  lemma BmiUnitIndependent(wKg: real, hCm: real, prefs: UnitPreference)
    requires hCm != 0.0
    ensures ConvertHeight(hCm, Cm, prefs.heightUnit) != 0.0
    ensures BmiOf(ConvertWeight(wKg, Kg, prefs.weightUnit), ConvertHeight(hCm, Cm, prefs.heightUnit), prefs)
         == BmiOf(wKg, hCm, DefaultPreference)
  {
    ConvertRoundTrip(wKg, Kg, prefs.weightUnit, Cm, prefs.heightUnit, Kcal, Kcal);
    ConvertMonotone(hCm, hCm, Kg, Kg, Cm, prefs.heightUnit, Kcal, Kcal);
  }
}
