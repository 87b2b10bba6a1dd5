/** The ideal-weight calculator: the Devine, Robinson, Miller and Hamwi formulas over the height above
    five feet, their floors, the conversion to pounds, the average and the range. */
module IdealWeight {

  import opened Common
  import opened JsMath
  import opened Units

  /** One value per formula, in kilograms or in the caller's weight unit. */
  datatype Formulas = Formulas(devine: real, robinson: real, miller: real, hamwi: real)

  /** The intercepts of the formulas, which are also their floors. */
  function Bases(gender: Gender): Formulas
  {
    if gender == Male then Formulas(50.0, 52.0, 56.2, 48.0) else Formulas(45.5, 49.0, 53.1, 45.5)
  }

  /** The kilograms each formula adds per inch above five feet. */
  function Slopes(gender: Gender): Formulas
  {
    if gender == Male then Formulas(2.3, 1.9, 1.41, 2.7) else Formulas(2.3, 1.7, 1.36, 2.2)
  }

  /** The height above five feet, in inches, of a height in centimetres (negative below five feet). */
  function HeightOverFive(heightCm: real): real
  {
    heightCm / 2.54 - 60.0
  }

  /** The four estimates in kilograms: intercept plus slope times the height above five feet, and never
      less than the intercept. */
  function Estimates(gender: Gender, heightOverFive: real): Formulas
  {
    var b, s := Bases(gender), Slopes(gender);
    Formulas(Max(b.devine + s.devine * heightOverFive, b.devine),
             Max(b.robinson + s.robinson * heightOverFive, b.robinson),
             Max(b.miller + s.miller * heightOverFive, b.miller),
             Max(b.hamwi + s.hamwi * heightOverFive, b.hamwi))
  }

  /** The estimates in the caller's weight unit: converted from kilograms when that unit is pounds. */
  function InWeightUnit(f: Formulas, unit: WeightUnit): Formulas
  {
    if unit == Lbs then
      Formulas(ConvertWeight(f.devine, Kg, Lbs), ConvertWeight(f.robinson, Kg, Lbs),
               ConvertWeight(f.miller, Kg, Lbs), ConvertWeight(f.hamwi, Kg, Lbs))
    else f
  }

  /** The arithmetic mean of the four values. */
  function Mean(f: Formulas): real
  {
    (f.devine + f.robinson + f.miller + f.hamwi) / 4.0
  }

  /** Math.min over the four values. */
  function Least(f: Formulas): (r: real)
    ensures r <= f.devine && r <= f.robinson && r <= f.miller && r <= f.hamwi
    ensures r == f.devine || r == f.robinson || r == f.miller || r == f.hamwi
  {
    Min(Min(f.devine, f.robinson), Min(f.miller, f.hamwi))
  }

  /** Math.max over the four values. */
  function Greatest(f: Formulas): (r: real)
    ensures f.devine <= r && f.robinson <= r && f.miller <= r && f.hamwi <= r
    ensures r == f.devine || r == f.robinson || r == f.miller || r == f.hamwi
  {
    Max(Max(f.devine, f.robinson), Max(f.miller, f.hamwi))
  }

  /** The margin the range adds on either side: 11 pounds or 5 kilograms. */
  function Margin(unit: WeightUnit): int
  {
    if unit == Lbs then 11 else 5
  }

  datatype WeightRange = WeightRange(min: real, max: real)

  /** What the component stores: every value rounded to one decimal. */
  datatype IdealWeightResult = IdealWeightResult(devine: real, robinson: real, miller: real, hamwi: real,
                                                 average: real, range: WeightRange)

  /** The stored result for four estimates already in the caller's weight unit. */
  function ResultFrom(f: Formulas, unit: WeightUnit): IdealWeightResult
  {
    var margin := Margin(unit) as real;
    IdealWeightResult(RoundTenth(f.devine), RoundTenth(f.robinson), RoundTenth(f.miller), RoundTenth(f.hamwi),
                      RoundTenth(Mean(f)),
                      WeightRange(RoundTenth(Least(f) - margin), RoundTenth(Greatest(f) + margin)))
  }

  /** ResultFrom written out on the four values, as the calculate handler computes it. */
  lemma ResultFromFields(devine: real, robinson: real, miller: real, hamwi: real, unit: WeightUnit)
    ensures ResultFrom(Formulas(devine, robinson, miller, hamwi), unit)
         == var margin := if unit == Lbs then 11.0 else 5.0;
            IdealWeightResult(RoundTenth(devine), RoundTenth(robinson), RoundTenth(miller), RoundTenth(hamwi),
                              RoundTenth((devine + robinson + miller + hamwi) / 4.0),
                              WeightRange(RoundTenth(Min(Min(devine, robinson), Min(miller, hamwi)) - margin),
                                          RoundTenth(Max(Max(devine, robinson), Max(miller, hamwi)) + margin)))
  {
  }

  /** The result for a filled-in height in the caller's height unit. */
  function IdealWeightOf(h: real, gender: Gender, prefs: UnitPreference): IdealWeightResult
  {
    ResultFrom(InWeightUnit(Estimates(gender, HeightOverFive(InCm(h, prefs.heightUnit))), prefs.weightUnit),
               prefs.weightUnit)
  }

  /** The ideal-weight component: its two form fields and its result slot. */
  class IdealWeightCalculator {
    var height: Option<real>
    var gender: Option<Gender>
    var result: Option<IdealWeightResult>

    constructor ()
      ensures height == None && gender == None && result == None
    {
      height, gender, result := None, None, None;
    }

    /** calculateIdealWeight: with the height missing or zero, or no gender, it returns and the previous
        result stays; otherwise it stores the four floored estimates, their average and the range. */
    method CalculateIdealWeight(prefs: UnitPreference)
      modifies this`result
      ensures !(Given(height) && gender.Some?) ==> result == old(result)
      ensures Given(height) && gender.Some? ==> result == Some(IdealWeightOf(height.value, gender.value, prefs))
    {
      if !Given(height) || gender.None? {
        return;
      }
      var h := height.value;
      var g := gender.value;
      var heightCm := InCm(h, prefs.heightUnit);
      var heightInches := heightCm / 2.54;
      var heightOverFive := heightInches - 60.0;

      var devine, robinson, miller, hamwi;
      if g == Male {
        devine := 50.0 + 2.3 * heightOverFive;
        robinson := 52.0 + 1.9 * heightOverFive;
        miller := 56.2 + 1.41 * heightOverFive;
        hamwi := 48.0 + 2.7 * heightOverFive;
      } else {
        devine := 45.5 + 2.3 * heightOverFive;
        robinson := 49.0 + 1.7 * heightOverFive;
        miller := 53.1 + 1.36 * heightOverFive;
        hamwi := 45.5 + 2.2 * heightOverFive;
      }

      devine := Max(devine, if g == Male then 50.0 else 45.5);
      robinson := Max(robinson, if g == Male then 52.0 else 49.0);
      miller := Max(miller, if g == Male then 56.2 else 53.1);
      hamwi := Max(hamwi, if g == Male then 48.0 else 45.5);
      assert Formulas(devine, robinson, miller, hamwi) == Estimates(g, HeightOverFive(heightCm));

      if prefs.weightUnit == Lbs {
        devine := ConvertWeight(devine, Kg, Lbs);
        robinson := ConvertWeight(robinson, Kg, Lbs);
        miller := ConvertWeight(miller, Kg, Lbs);
        hamwi := ConvertWeight(hamwi, Kg, Lbs);
      }
      ghost var f := Formulas(devine, robinson, miller, hamwi);
      assert f == InWeightUnit(Estimates(g, HeightOverFive(heightCm)), prefs.weightUnit);

      var average := (devine + robinson + miller + hamwi) / 4.0;
      var margin := if prefs.weightUnit == Lbs then 11.0 else 5.0;
      var rangeMin := Min(Min(devine, robinson), Min(miller, hamwi)) - margin;
      var rangeMax := Max(Max(devine, robinson), Max(miller, hamwi)) + margin;
      ResultFromFields(devine, robinson, miller, hamwi, prefs.weightUnit);

      result := Some(IdealWeightResult(RoundTenth(devine), RoundTenth(robinson), RoundTenth(miller),
                                       RoundTenth(hamwi), RoundTenth(average),
                                       WeightRange(RoundTenth(rangeMin), RoundTenth(rangeMax))));
      assert result == Some(ResultFrom(f, prefs.weightUnit));
    }
  }

  /** Every estimate is at least its floor; at or below five feet all four are exactly the floors, and above
      five feet each is its unfloored formula, strictly above the floor. */
  lemma EstimatesFloor(gender: Gender, heightOverFive: real)
    ensures var e, b := Estimates(gender, heightOverFive), Bases(gender);
            e.devine >= b.devine && e.robinson >= b.robinson && e.miller >= b.miller && e.hamwi >= b.hamwi
    ensures heightOverFive <= 0.0 ==> Estimates(gender, heightOverFive) == Bases(gender)
    ensures heightOverFive > 0.0 ==>
              var e, b, s := Estimates(gender, heightOverFive), Bases(gender), Slopes(gender);
              e.devine == b.devine + s.devine * heightOverFive > b.devine &&
              e.robinson == b.robinson + s.robinson * heightOverFive > b.robinson &&
              e.miller == b.miller + s.miller * heightOverFive > b.miller &&
              e.hamwi == b.hamwi + s.hamwi * heightOverFive > b.hamwi
  {
  }

  /** Five feet is 152.4 cm: the floors take over at and below that height. */
  lemma FiveFeet(heightCm: real)
    ensures HeightOverFive(heightCm) <= 0.0 <==> heightCm <= 152.4
  {
  }

  /** A taller person never gets a lower estimate from any formula. */
  lemma EstimatesMonotone(gender: Gender, o1: real, o2: real)
    requires o1 <= o2
    ensures var e1, e2 := Estimates(gender, o1), Estimates(gender, o2);
            e1.devine <= e2.devine && e1.robinson <= e2.robinson && e1.miller <= e2.miller && e1.hamwi <= e2.hamwi
  {
  }

  /** At every height, each formula gives a man a strictly higher estimate than a woman. */
  lemma MaleAboveFemale(heightOverFive: real)
    ensures var m, f := Estimates(Male, heightOverFive), Estimates(Female, heightOverFive);
            m.devine > f.devine && m.robinson > f.robinson && m.miller > f.miller && m.hamwi > f.hamwi
  {
    if heightOverFive <= 0.0 {
      EstimatesFloor(Male, heightOverFive);
      EstimatesFloor(Female, heightOverFive);
    }
  }

  /** Scaling by a positive factor commutes with Math.min and Math.max of two values. */
  lemma ScaleMinMax(a: real, b: real, k: real)
    requires k > 0.0
    ensures Min(a * k, b * k) == Min(a, b) * k
    ensures Max(a * k, b * k) == Max(a, b) * k
  {
    if a <= b {
      assert a * k <= b * k;
    } else {
      assert b * k < a * k;
    }
  }

  /** Converting the four estimates to pounds converts their mean and their extremes alike. */
  lemma PoundsCommute(f: Formulas)
    ensures Mean(InWeightUnit(f, Lbs)) == ConvertWeight(Mean(f), Kg, Lbs)
    ensures Least(InWeightUnit(f, Lbs)) == ConvertWeight(Least(f), Kg, Lbs)
    ensures Greatest(InWeightUnit(f, Lbs)) == ConvertWeight(Greatest(f), Kg, Lbs)
  {
    var k := LbsPerKg;
    ConvertFactors(Mean(f));
    ConvertFactors(Least(f));
    ConvertFactors(Greatest(f));
    ConvertFactors(f.devine);
    ConvertFactors(f.robinson);
    ConvertFactors(f.miller);
    ConvertFactors(f.hamwi);
    assert InWeightUnit(f, Lbs) == Formulas(f.devine * k, f.robinson * k, f.miller * k, f.hamwi * k);
    ScaleMinMax(f.devine, f.robinson, k);
    ScaleMinMax(f.miller, f.hamwi, k);
    ScaleMinMax(Min(f.devine, f.robinson), Min(f.miller, f.hamwi), k);
    ScaleMinMax(Max(f.devine, f.robinson), Max(f.miller, f.hamwi), k);
  }

  /** One value between the extremes stays, after rounding, at least k away from the rounded, widened
      extremes. */
  lemma BracketOne(lo: real, x: real, hi: real, k: int)
    requires lo <= x <= hi
    ensures RoundTenth(lo - k as real) + k as real <= RoundTenth(x) <= RoundTenth(hi + k as real) - k as real
  {
    RoundTenthShift(lo - k as real, k);
    assert lo - k as real + k as real == lo;
    RoundTenthShift(hi, k);
    RoundTenthMonotone(lo, x);
    RoundTenthMonotone(x, hi);
  }

  /** The stored range brackets every stored estimate and the stored average with at least the margin
      (5 kg or 11 lbs) to spare on each side, rounding included. */
  lemma RangeBrackets(f: Formulas, unit: WeightUnit)
    ensures var r, m := ResultFrom(f, unit), Margin(unit) as real;
            r.range.min + m <= r.devine <= r.range.max - m &&
            r.range.min + m <= r.robinson <= r.range.max - m &&
            r.range.min + m <= r.miller <= r.range.max - m &&
            r.range.min + m <= r.hamwi <= r.range.max - m &&
            r.range.min + m <= r.average <= r.range.max - m
  {
    var k, lo, hi := Margin(unit), Least(f), Greatest(f);
    BracketOne(lo, f.devine, hi, k);
    BracketOne(lo, f.robinson, hi, k);
    BracketOne(lo, f.miller, hi, k);
    BracketOne(lo, f.hamwi, hi, k);
    BracketOne(lo, Mean(f), hi, k);
  }

  /** The pound margin is its own constant: 5 kg converted is 11.0231 lbs, not 11. */
  lemma MarginsAreSeparateConstants()
    ensures ConvertWeight(Margin(Kg) as real, Kg, Lbs) == 11.0231
    ensures Margin(Lbs) as real < ConvertWeight(Margin(Kg) as real, Kg, Lbs)
  {
    ConvertFactors(5.0);
  }

  /** The same height entered in inches or in centimetres gives the same result. */
  lemma HeightUnitIndependent(hCm: real, gender: Gender, w: WeightUnit)
    ensures IdealWeightOf(ConvertHeight(hCm, Cm, Inches), gender, UnitPreference(w, Inches, Kcal))
         == IdealWeightOf(hCm, gender, UnitPreference(w, Cm, Kcal))
  {
    ConvertRoundTrip(hCm, Kg, Kg, Cm, Inches, Kcal, Kcal);
  }

  /** A woman of exactly five feet (152.4 cm) gets the four floors, their average 48.275 rounded to 48.3,
      and the range 40.5 to 58.1 kg. */
  lemma FiveFeetWomanExample()
    ensures IdealWeightOf(152.4, Female, DefaultPreference)
         == IdealWeightResult(45.5, 49.0, 53.1, 45.5, 48.3, WeightRange(40.5, 58.1))
  {
    EstimatesFloor(Female, 0.0);
    RoundUnique(455.0, 455);
    RoundUnique(490.0, 490);
    RoundUnique(531.0, 531);
    RoundUnique(482.75, 483);
    RoundUnique(405.0, 405);
    RoundUnique(581.0, 581);
  }
}
