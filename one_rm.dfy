/** The one-rep-max calculator: the Epley estimate, the table of training percentages and the intensity
    labels. */
module OneRm {

  import opened Common
  import opened Units

  /** The training percentages the table lists, in order. */
  const TrainingPercentages: seq<int> := [50, 60, 65, 70, 75, 80, 85, 90, 95, 100]

  /** One table row: a percentage of the one-rep max and the weight it amounts to. */
  datatype PercentageRow = PercentageRow(percentage: int, weight: real)

  /** What the component stores: the unrounded estimate and its table. */
  datatype OneRmResult = OneRmResult(oneRm: real, percentages: seq<PercentageRow>)

  /** The Epley estimate of the one-rep max from a weight lifted for a number of repetitions. */
  function Epley(weight: real, reps: real): real
  {
    weight * (1.0 + reps / 30.0)
  }

  /** The map over the percentages: each row carries its percentage and that share of the estimate. */
  function PercentageTable(oneRm: real, percentages: seq<int>): seq<PercentageRow>
  {
    seq(|percentages|, i requires 0 <= i < |percentages| =>
      PercentageRow(percentages[i], (oneRm * percentages[i] as real) / 100.0))
  }

  /** The guard of the calculate handler: a positive weight and between 0 (exclusive) and 15 repetitions. */
  predicate Accepted(weight: real, reps: real)
  {
    weight > 0.0 && reps > 0.0 && reps <= 15.0
  }

  /** What calculateOneRM stores for the two inputs: a result when the guard holds, null otherwise. */
  function OneRmOf(weight: real, reps: real): Option<OneRmResult>
  {
    if Accepted(weight, reps) then
      var oneRm := Epley(weight, reps);
      Some(OneRmResult(oneRm, PercentageTable(oneRm, TrainingPercentages)))
    else None
  }

  /** The label shown under a table row. */
  function IntensityLabel(percentage: int): string
  {
    if percentage >= 90 then "Max Effort"
    else if percentage >= 80 then "Heavy"
    else if percentage >= 70 then "Moderate"
    else if percentage >= 60 then "Light"
    else "Warm-up"
  }

  /** The one-rep-max component: its two numeric inputs, which start at 100 and 5, and its result slot. */
  class OneRmCalculator {
    var weight: real
    var reps: real
    var result: Option<OneRmResult>

    constructor ()
      ensures weight == 100.0 && reps == 5.0 && result == None
    {
      weight := 100.0;
      reps := 5.0;
      result := None;
    }

    /** calculateOneRM: with the guard met it stores the estimate and its table, otherwise it resets the
        result to null. */
    method CalculateOneRm()
      modifies this`result
      ensures result == OneRmOf(weight, reps)
      ensures result.Some? <==> Accepted(weight, reps)
    {
      if weight > 0.0 && reps > 0.0 && reps <= 15.0 {
        var oneRm := weight * (1.0 + reps / 30.0);
        assert oneRm == Epley(weight, reps);
        var percentages := PercentageTable(oneRm, TrainingPercentages);
        result := Some(OneRmResult(oneRm, percentages));
      } else {
        result := None;
      }
    }
  }

  /** For a positive weight, the estimate exceeds the weight whenever a repetition is counted and grows
      strictly with the repetitions. */
  lemma EpleyExceedsWeight(weight: real, r1: real, r2: real)
    requires weight > 0.0
    ensures r1 > 0.0 ==> Epley(weight, r1) > weight
    ensures r1 < r2 ==> Epley(weight, r1) < Epley(weight, r2)
  {
    assert Epley(weight, r1) == weight + weight * (r1 / 30.0);
    assert Epley(weight, r2) - Epley(weight, r1) == weight * ((r2 - r1) / 30.0);
    if r1 > 0.0 {
      assert weight * (r1 / 30.0) > 0.0;
    }
    if r1 < r2 {
      assert weight * ((r2 - r1) / 30.0) > 0.0;
    }
  }

  /** A stored result is exactly the Epley estimate of the inputs, and it exceeds the weight. */
  lemma StoredEstimate(weight: real, reps: real)
    ensures OneRmOf(weight, reps).Some? <==> Accepted(weight, reps)
    ensures OneRmOf(weight, reps).Some? ==>
              OneRmOf(weight, reps).value.oneRm == Epley(weight, reps) > weight
  {
    if Accepted(weight, reps) {
      EpleyExceedsWeight(weight, reps, reps);
    }
  }

  /** A larger share of a positive estimate is a larger weight. */
  lemma ShareIncreasing(oneRm: real, p: int, q: int)
    requires oneRm > 0.0 && p < q
    ensures (oneRm * p as real) / 100.0 < (oneRm * q as real) / 100.0
  {
    assert oneRm * q as real - oneRm * p as real == oneRm * (q - p) as real;
  }

  /** The training percentages increase strictly from one entry to the next. */
  lemma PercentagesStepUp(k: int)
    requires 0 <= k < |TrainingPercentages| - 1
    ensures TrainingPercentages[k] < TrainingPercentages[k + 1]
  {
  }

  /** Hence any earlier training percentage is below any later one. */
  lemma {:induction false} PercentagesIncrease(i: int, j: int)
    requires 0 <= i < j < |TrainingPercentages|
    ensures TrainingPercentages[i] < TrainingPercentages[j]
    decreases j - i
  {
    PercentagesStepUp(i);
    if i + 1 < j {
      PercentagesIncrease(i + 1, j);
    }
  }

  /** The stored table has one row per training percentage, in the same order, each the matching share
      of the estimate; its 50% row is half the estimate and its 100% row the estimate itself. */
  lemma TableShape(oneRm: real)
    ensures var t := PercentageTable(oneRm, TrainingPercentages);
            |t| == 10 &&
            (forall i :: 0 <= i < 10 ==> t[i].percentage == TrainingPercentages[i]) &&
            (forall i :: 0 <= i < 10 ==> t[i].weight == oneRm * TrainingPercentages[i] as real / 100.0) &&
            t[0].weight == oneRm / 2.0 && t[9].weight == oneRm
  {
  }

  /** For a positive estimate the weights of a table over strictly increasing percentages strictly
      increase. */
  lemma SharesIncrease(oneRm: real, percentages: seq<int>)
    requires oneRm > 0.0
    requires forall i, j :: 0 <= i < j < |percentages| ==> percentages[i] < percentages[j]
    ensures var t := PercentageTable(oneRm, percentages);
            forall i, j :: 0 <= i < j < |t| ==> t[i].weight < t[j].weight
  {
    var t := PercentageTable(oneRm, percentages);
    forall i, j | 0 <= i < j < |t|
      ensures t[i].weight < t[j].weight
    {
      ShareIncreasing(oneRm, percentages[i], percentages[j]);
    }
  }

  /** For a positive estimate the weights strictly increase down the stored table. */
  lemma TableIncreasing(oneRm: real)
    requires oneRm > 0.0
    ensures var t := PercentageTable(oneRm, TrainingPercentages);
            forall i, j :: 0 <= i < j < |t| ==> t[i].weight < t[j].weight
  {
    forall i, j | 0 <= i < j < |TrainingPercentages|
      ensures TrainingPercentages[i] < TrainingPercentages[j]
    {
      PercentagesIncrease(i, j);
    }
    SharesIncrease(oneRm, TrainingPercentages);
  }

  /** 100 for 5 repetitions estimates 116.67 (exactly 350/3), whose table starts at 58.33 (175/3). */
  lemma DefaultInputsExample()
    ensures OneRmOf(100.0, 5.0).Some?
    ensures OneRmOf(100.0, 5.0).value.oneRm == 350.0 / 3.0
    ensures OneRmOf(100.0, 5.0).value.percentages[0] == PercentageRow(50, 175.0 / 3.0)
  {
    TableShape(350.0 / 3.0);
  }

  /** The estimate and its table are in whatever unit the weight was entered in: converting the weight
      converts every number of the result and leaves the guard's verdict unchanged. */
  lemma UnitAgnostic(weight: real, reps: real, u1: WeightUnit, u2: WeightUnit)
    ensures Accepted(ConvertWeight(weight, u1, u2), reps) <==> Accepted(weight, reps)
    ensures Epley(ConvertWeight(weight, u1, u2), reps) == ConvertWeight(Epley(weight, reps), u1, u2)
  {
    ConvertWeightLinear(weight, 0.0, 1.0 + reps / 30.0, u1, u2);
    ConvertMonotone(0.0, weight, u1, u2, Cm, Cm, Kcal, Kcal);
    ConvertMonotone(weight, 0.0, u1, u2, Cm, Cm, Kcal, Kcal);
  }

  /** The thresholds of the intensity labels, as ranges. */
  lemma IntensityThresholds(p: int)
    ensures IntensityLabel(p) == "Max Effort" <==> p >= 90
    ensures IntensityLabel(p) == "Heavy" <==> 80 <= p < 90
    ensures IntensityLabel(p) == "Moderate" <==> 70 <= p < 80
    ensures IntensityLabel(p) == "Light" <==> 60 <= p < 70
    ensures IntensityLabel(p) == "Warm-up" <==> p < 60
  {
  }

  /** The labels down the stored table: one warm-up row, two light, two moderate, two heavy and three
      at maximum effort. */
  lemma TableLabels()
    ensures seq(10, i requires 0 <= i < 10 => IntensityLabel(TrainingPercentages[i]))
         == ["Warm-up", "Light", "Light", "Moderate", "Moderate", "Heavy", "Heavy",
             "Max Effort", "Max Effort", "Max Effort"]
  {
  }
}
