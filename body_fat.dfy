/** The body-fat calculator: the US Navy circumference equations, the clamp to [0, 100], the per-gender
    category tables and the component's calculate handler. The decimal logarithm is a parameter. */
module BodyFat {

  import opened Common
  import opened JsMath
  import opened Units
  import opened Classifier

  /** The male category table, in the order the lookup scans it. */
  const MaleCategories: seq<CategoryRange> := [
    CategoryRange(2.0, 5.0, "Essential Fat", "Minimum fat needed for basic physical and physiological health"),
    CategoryRange(6.0, 13.0, "Athletes", "Typical range for male athletes"),
    CategoryRange(14.0, 17.0, "Fitness", "Fit, non-athlete individuals"),
    CategoryRange(18.0, 24.0, "Average", "Acceptable range for average men"),
    CategoryRange(25.0, 100.0, "Obese", "Above average, may indicate health risks")
  ]

  /** The female category table. */
  const FemaleCategories: seq<CategoryRange> := [
    CategoryRange(10.0, 13.0, "Essential Fat", "Minimum fat needed for basic physical and physiological health"),
    CategoryRange(14.0, 20.0, "Athletes", "Typical range for female athletes"),
    CategoryRange(21.0, 24.0, "Fitness", "Fit, non-athlete individuals"),
    CategoryRange(25.0, 31.0, "Average", "Acceptable range for average women"),
    CategoryRange(32.0, 100.0, "Obese", "Above average, may indicate health risks")
  ]

  function CategoriesFor(gender: Gender): seq<CategoryRange>
  {
    if gender == Male then MaleCategories else FemaleCategories
  }

  /** The circumference whose logarithm the equation takes: waist - neck for men, waist + hip - neck
      for women. */
  function Girth(gender: Gender, waistCm: real, neckCm: real, hipCm: real): real
  {
    if gender == Male then waistCm - neckCm else waistCm + hipCm - neckCm
  }

  /** The US Navy equations, for a positive girth and height. */
  function NavyEquation(log10: real -> real, gender: Gender, heightCm: real, girth: real): real
  {
    if gender == Male then 86.01 * log10(girth) - 70.041 * log10(heightCm) + 36.76
    else 163.205 * log10(girth) - 97.684 * log10(heightCm) - 78.387
  }

  /** Math.max(0, Math.min(100, x)). */
  function Clamp(x: real): (r: real)
    ensures 0.0 <= r <= 100.0
    ensures 0.0 <= x <= 100.0 ==> r == x
    ensures x < 0.0 ==> r == 0.0
    ensures x > 100.0 ==> r == 100.0
  {
    Max(0.0, Min(100.0, x))
  }

  /** The percentage after the clamp, or None where the floating-point computation gives NaN: the
      logarithm of a negative girth or height is NaN, and NaN survives the clamp. A zero girth has
      logarithm -Infinity, which the clamp turns into 0. A zero height has logarithm -Infinity too; its
      negative coefficient makes the equation +Infinity, clamped to 100, except that with a zero girth
      as well the sum -Infinity + Infinity is NaN. */
  function Percentage(log10: real -> real, gender: Gender, heightCm: real, waistCm: real, neckCm: real,
                      hipCm: real): Option<real>
  {
    var girth := Girth(gender, waistCm, neckCm, hipCm);
    if heightCm < 0.0 || girth < 0.0 then None
    else if heightCm == 0.0 then (if girth == 0.0 then None else Some(100.0))
    else if girth == 0.0 then Some(0.0)
    else Some(Clamp(NavyEquation(log10, gender, heightCm, girth)))
  }

  /** What the component stores: the percentage rounded to one decimal (None for NaN), its category and
      description. */
  datatype BodyFatResult = BodyFatResult(bodyFatPercentage: Option<real>, category: string, description: string)

  /** The result for filled-in fields in the caller's height unit; every girth is converted with the
      height converter, and the hip counts as 0 for men. */
  function BodyFatOf(log10: real -> real, gender: Gender, h: real, w: real, n: real, hp: real,
                     prefs: UnitPreference): BodyFatResult
  {
    var heightInCm := ConvertHeight(h, prefs.heightUnit, Cm);
    var waistInCm := ConvertHeight(w, prefs.heightUnit, Cm);
    var neckInCm := ConvertHeight(n, prefs.heightUnit, Cm);
    var hipInCm := if gender == Female then ConvertHeight(hp, prefs.heightUnit, Cm) else 0.0;
    match Percentage(log10, gender, heightInCm, waistInCm, neckInCm, hipInCm)
    case None => BodyFatResult(None, UnknownLabel, "")
    case Some(p) =>
      var (category, description) := Classification(CategoriesFor(gender), p);
      BodyFatResult(Some(RoundTenth(p)), category, description)
  }

  /** BodyFatOf in terms of the percentage the handler computes. */
  lemma BodyFatOfUnfolds(log10: real -> real, gender: Gender, h: real, w: real, n: real, hp: real,
                         prefs: UnitPreference, percentage: Option<real>)
    requires percentage == Percentage(log10, gender, ConvertHeight(h, prefs.heightUnit, Cm),
                                      ConvertHeight(w, prefs.heightUnit, Cm), ConvertHeight(n, prefs.heightUnit, Cm),
                                      if gender == Female then ConvertHeight(hp, prefs.heightUnit, Cm) else 0.0)
    ensures percentage.None? ==> BodyFatOf(log10, gender, h, w, n, hp, prefs) == BodyFatResult(None, UnknownLabel, "")
    ensures percentage.Some? ==>
              var (category, description) := Classification(CategoriesFor(gender), percentage.value);
              BodyFatOf(log10, gender, h, w, n, hp, prefs)
                == BodyFatResult(Some(RoundTenth(percentage.value)), category, description)
  {
  }

  /** The form fields the handler requires: height, waist, neck and gender, and the hip for women. */
  predicate FieldsGiven(gender: Option<Gender>, height: Option<real>, waist: Option<real>, neck: Option<real>,
                        hip: Option<real>)
  {
    Given(height) && Given(waist) && Given(neck) && gender.Some? && (gender.value == Female ==> Given(hip))
  }

  /** The body-fat component: its five form fields and its result slot. */
  class BodyFatCalculator {
    var gender: Option<Gender>
    var height: Option<real>
    var waist: Option<real>
    var neck: Option<real>
    var hip: Option<real>
    var result: Option<BodyFatResult>

    constructor ()
      ensures gender == None && height == None && waist == None && neck == None && hip == None
      ensures result == None
    {
      gender, height, waist, neck, hip := None, None, None, None, None;
      result := None;
    }

    /** calculateBodyFat: with height, waist, neck or gender missing, or a woman's hip missing, it returns
        and the previous result stays; otherwise it stores the clamped, classified, rounded percentage. */
    method CalculateBodyFat(log10: real -> real, prefs: UnitPreference)
      modifies this`result
      ensures !FieldsGiven(gender, height, waist, neck, hip) ==> result == old(result)
      ensures FieldsGiven(gender, height, waist, neck, hip) ==>
                result == Some(BodyFatOf(log10, gender.value, height.value, waist.value, neck.value,
                                         if hip.Some? then hip.value else 0.0, prefs))
    {
      if !Given(height) || !Given(waist) || !Given(neck) || gender.None? {
        return;
      }
      if gender.value == Female && !Given(hip) {
        return;
      }
      var g := gender.value;
      var hp := if hip.Some? then hip.value else 0.0;
      var heightInCm := ConvertHeight(height.value, prefs.heightUnit, Cm);
      var waistInCm := ConvertHeight(waist.value, prefs.heightUnit, Cm);
      var neckInCm := ConvertHeight(neck.value, prefs.heightUnit, Cm);
      var hipInCm := if g == Female then ConvertHeight(hp, prefs.heightUnit, Cm) else 0.0;
      var girth := if g == Male then waistInCm - neckInCm else waistInCm + hipInCm - neckInCm;

      var bodyFatPercentage: Option<real>;
      if heightInCm < 0.0 || girth < 0.0 {
        bodyFatPercentage := None;
      } else if heightInCm == 0.0 {
        bodyFatPercentage := if girth == 0.0 then None else Some(100.0);
      } else if girth == 0.0 {
        bodyFatPercentage := Some(0.0);
      } else {
        var raw: real;
        if g == Male {
          raw := 86.01 * log10(waistInCm - neckInCm) - 70.041 * log10(heightInCm) + 36.76;
        } else {
          raw := 163.205 * log10(waistInCm + hipInCm - neckInCm) - 97.684 * log10(heightInCm) - 78.387;
        }
        bodyFatPercentage := Some(Max(0.0, Min(100.0, raw)));
      }
      assert bodyFatPercentage == Percentage(log10, g, heightInCm, waistInCm, neckInCm, hipInCm);
      BodyFatOfUnfolds(log10, g, height.value, waist.value, neck.value, hp, prefs, bodyFatPercentage);

      var category, description := UnknownLabel, "";
      if bodyFatPercentage.Some? {
        category, description := Classify(CategoriesFor(g), bodyFatPercentage.value);
        result := Some(BodyFatResult(Some(RoundTenth(bodyFatPercentage.value)), category, description));
      } else {
        result := Some(BodyFatResult(None, category, description));
      }
    }
  }

  /** The male labels differ pairwise. */
  lemma MaleLabelsDistinct()
    ensures DistinctLabels(MaleCategories)
  {
    var t := MaleCategories;
    forall i, j | 0 <= i < j < |t|
      ensures t[i].category != t[j].category
    {
      assert |t[i].category| != |t[j].category| || t[i].category[0] != t[j].category[0];
    }
  }

  /** The female labels differ pairwise. */
  lemma FemaleLabelsDistinct()
    ensures DistinctLabels(FemaleCategories)
  {
    var t := FemaleCategories;
    forall i, j | 0 <= i < j < |t|
      ensures t[i].category != t[j].category
    {
      assert |t[i].category| != |t[j].category| || t[i].category[0] != t[j].category[0];
    }
  }

  /** Both tables are ascending and carry no "Unknown" label. */
  lemma TablesWellFormed()
    ensures Ascending(MaleCategories) && KnownLabels(MaleCategories)
    ensures Ascending(FemaleCategories) && KnownLabels(FemaleCategories)
  {
  }

  /** The lookup on the male table, gaps included: below 2, and strictly between 5 and 6, 13 and 14,
      17 and 18, 24 and 25. */
  lemma MaleClassification(v: real)
    ensures Classification(MaleCategories, v).0 == "Essential Fat" <==> 2.0 <= v <= 5.0
    ensures Classification(MaleCategories, v).0 == "Athletes" <==> 6.0 <= v <= 13.0
    ensures Classification(MaleCategories, v).0 == "Fitness" <==> 14.0 <= v <= 17.0
    ensures Classification(MaleCategories, v).0 == "Average" <==> 18.0 <= v <= 24.0
    ensures Classification(MaleCategories, v).0 == "Obese" <==> 25.0 <= v <= 100.0
    ensures Classification(MaleCategories, v) == ("Unknown", "") <==>
            v < 2.0 || 5.0 < v < 6.0 || 13.0 < v < 14.0 || 17.0 < v < 18.0 || 24.0 < v < 25.0 || 100.0 < v
  {
    TablesWellFormed();
    MaleLabelsDistinct();
    UnknownIffNoRow(MaleCategories, v);
    LabelIffRow(MaleCategories, v, 0);
    LabelIffRow(MaleCategories, v, 1);
    LabelIffRow(MaleCategories, v, 2);
    LabelIffRow(MaleCategories, v, 3);
    LabelIffRow(MaleCategories, v, 4);
  }

  /** The lookup on the female table, gaps included: below 10, and strictly between 13 and 14, 20 and 21,
      24 and 25, 31 and 32. */
  lemma FemaleClassification(v: real)
    ensures Classification(FemaleCategories, v).0 == "Essential Fat" <==> 10.0 <= v <= 13.0
    ensures Classification(FemaleCategories, v).0 == "Athletes" <==> 14.0 <= v <= 20.0
    ensures Classification(FemaleCategories, v).0 == "Fitness" <==> 21.0 <= v <= 24.0
    ensures Classification(FemaleCategories, v).0 == "Average" <==> 25.0 <= v <= 31.0
    ensures Classification(FemaleCategories, v).0 == "Obese" <==> 32.0 <= v <= 100.0
    ensures Classification(FemaleCategories, v) == ("Unknown", "") <==>
            v < 10.0 || 13.0 < v < 14.0 || 20.0 < v < 21.0 || 24.0 < v < 25.0 || 31.0 < v < 32.0 || 100.0 < v
  {
    TablesWellFormed();
    FemaleLabelsDistinct();
    UnknownIffNoRow(FemaleCategories, v);
    LabelIffRow(FemaleCategories, v, 0);
    LabelIffRow(FemaleCategories, v, 1);
    LabelIffRow(FemaleCategories, v, 2);
    LabelIffRow(FemaleCategories, v, 3);
    LabelIffRow(FemaleCategories, v, 4);
  }

  /** Whatever the logarithm, a stored percentage lies in [0, 100] after the clamp and the rounding. */
  lemma StoredPercentageBounds(log10: real -> real, gender: Gender, h: real, w: real, n: real, hp: real,
                               prefs: UnitPreference)
    ensures BodyFatOf(log10, gender, h, w, n, hp, prefs).bodyFatPercentage.Some? ==>
              0.0 <= BodyFatOf(log10, gender, h, w, n, hp, prefs).bodyFatPercentage.value <= 100.0
  {
    var heightInCm := ConvertHeight(h, prefs.heightUnit, Cm);
    var waistInCm := ConvertHeight(w, prefs.heightUnit, Cm);
    var neckInCm := ConvertHeight(n, prefs.heightUnit, Cm);
    var hipInCm := if gender == Female then ConvertHeight(hp, prefs.heightUnit, Cm) else 0.0;
    var p := Percentage(log10, gender, heightInCm, waistInCm, neckInCm, hipInCm);
    if p.Some? {
      RoundTenthMonotone(0.0, p.value);
      RoundTenthMonotone(p.value, 100.0);
      RoundUnique(0.0, 0);
      RoundUnique(1000.0, 1000);
    }
  }

  /** A NaN percentage (a negative girth or height) is stored with category "Unknown"; a zero girth
      with a positive height gives 0 percent, which lies below the first row of both tables and is
      "Unknown" too. A zero height gives 100 percent, or NaN when the girth is zero as well. */
  lemma OutOfDomainGirth(log10: real -> real, gender: Gender, heightCm: real, waistCm: real, neckCm: real,
                         hipCm: real)
    ensures Girth(gender, waistCm, neckCm, hipCm) < 0.0 ==>
              Percentage(log10, gender, heightCm, waistCm, neckCm, hipCm) == None
    ensures heightCm > 0.0 && Girth(gender, waistCm, neckCm, hipCm) == 0.0 ==>
              Percentage(log10, gender, heightCm, waistCm, neckCm, hipCm) == Some(0.0)
    ensures heightCm == 0.0 && Girth(gender, waistCm, neckCm, hipCm) > 0.0 ==>
              Percentage(log10, gender, heightCm, waistCm, neckCm, hipCm) == Some(100.0)
    ensures heightCm == 0.0 && Girth(gender, waistCm, neckCm, hipCm) == 0.0 ==>
              Percentage(log10, gender, heightCm, waistCm, neckCm, hipCm) == None
    ensures Classification(CategoriesFor(gender), 0.0) == ("Unknown", "")
  {
    MaleClassification(0.0);
    FemaleClassification(0.0);
  }

  /** A decimal logarithm is non-decreasing on the positive numbers. */
  ghost predicate NonDecreasingOnPositives(log10: real -> real)
  {
    forall x: real, y: real :: 0.0 < x <= y ==> log10(x) <= log10(y)
  }

  /** For such a logarithm, and a fixed positive height, the percentage never decreases as the girth grows,
      for both sexes (both equations have a positive coefficient on the girth term). */
  lemma PercentageMonotoneInGirth(log10: real -> real, gender: Gender, heightCm: real,
                                  w1: real, n1: real, hp1: real, w2: real, n2: real, hp2: real)
    requires NonDecreasingOnPositives(log10)
    requires heightCm > 0.0
    requires 0.0 <= Girth(gender, w1, n1, hp1) <= Girth(gender, w2, n2, hp2)
    ensures Percentage(log10, gender, heightCm, w1, n1, hp1).Some?
    ensures Percentage(log10, gender, heightCm, w2, n2, hp2).Some?
    ensures Percentage(log10, gender, heightCm, w1, n1, hp1).value
         <= Percentage(log10, gender, heightCm, w2, n2, hp2).value
  {
    var g1, g2 := Girth(gender, w1, n1, hp1), Girth(gender, w2, n2, hp2);
    if g1 > 0.0 {
      assert log10(g1) <= log10(g2);
      var e1, e2 := NavyEquation(log10, gender, heightCm, g1), NavyEquation(log10, gender, heightCm, g2);
      assert e1 <= e2;
    }
  }
}
