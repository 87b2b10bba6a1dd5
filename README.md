# calcuFit calculation engine in Dafny

This project models the calculation core of calcuFit, a fitness web app with seven calculators. The
calculators are BMI, BMR, TDEE, body fat, ideal weight, one-rep max and weight goal. They share one unit
context (kg or lbs, cm or inches, kcal or kJ).

How the source maps onto the model:

- The conversion helpers of the unit context are pure functions (`Units`).
- Every calculator component is a Dafny `class`:
  - its form fields are class fields;
  - the BMI, BMR, TDEE, body-fat and ideal-weight components keep their inputs as strings and parse them in
    the handler, so a field there is an `Option`: an empty, zero or unparsable entry is `None` or `Some(0)`;
  - the one-rep-max and goal components keep numbers (`Number(…)` on every change), so their fields are
    `real`, and a cleared field is 0;
  - its `calculate…` handler is a method that changes only the `result` slot;
  - the unit preference is a parameter of that method.
- Each handler is proved equal to a specification function of its inputs (`BmiOf`, `BmrOf`, `TdeeOf`,
  `BodyFatOf`, `IdealWeightOf`, `OneRmOf`, `GoalOf`). The lemmas state what those functions promise.
- The first-match range lookup that the BMI and body-fat calculators write as a `for…of` loop with `break`
  is the method `Classifier.Classify`. It is proved against the recursive `Classifier.FirstMatch`.
- The TDEE category string is the datatype `Tdee.EnergyNeeds`. `Tdee.NeedsLabel` gives the four strings the
  component stores.
- `Math.round` is modelled exactly, halves rounded up (`JsMath.Round`), and so is the one-decimal
  rounding `Math.round(x * 10) / 10` (`JsMath.RoundTenth`). All arithmetic is on exact reals.

Modules and files:

| module | file | source |
|---|---|---|
| Common | common.dfy | optional form fields, gender |
| JsMath | jsmath.dfy | `Math.round`, `Math.max`, `Math.min`, `Math.abs` |
| Units | units.dfy | components/unit-context.tsx |
| Classifier | classifier.dfy | the category loops of components/bmi-calculator.tsx and components/body-fat-calculator.tsx |
| Bmi | bmi.dfy | components/bmi-calculator.tsx |
| Bmr | bmr.dfy | components/bmr-calculator.tsx |
| Tdee | tdee.dfy | components/tdee-calculator.tsx |
| BodyFat | body_fat.dfy | components/body-fat-calculator.tsx |
| IdealWeight | ideal_weight.dfy | components/ideal-weight-calculator.tsx |
| OneRm | one_rm.dfy | components/one-rm-calculator.tsx |
| Goal | goal.dfy | components/goal-calculator.tsx |

Facts about the code that the model keeps:

- **Category tables.** The rows are not contiguous, and the top row ends at the literal 100. BMI values
  strictly between 18.4 and 18.5, 24.9 and 25, or 29.9 and 30 are "Unknown", and so is a BMI above 100.
  The body-fat tables have the same kind of gaps. See `Bmi.BmiClassification`,
  `BodyFat.MaleClassification` and `BodyFat.FemaleClassification`.
- **Body fat outside the logarithm's domain.** The body-fat handler does not reject a girth or height whose
  logarithm is undefined:
  - a negative argument gives NaN, which the code stores, with category "Unknown";
  - a zero girth gives -Infinity, which the clamp turns into 0 percent;
  - a zero height makes the equation +Infinity, which the clamp turns into 100 percent, or NaN when the
    girth is zero too. The handler's guard never lets a zero height through.

  See `BodyFat.OutOfDomainGirth`.
- **BMR example.** For a man of 70 kg, 170 cm and 30 years, Mifflin-St Jeor is 700 + 1062.5 - 150 + 5
  = 1617.5, stored as 1618. See `Bmr.BmrExample`.
- **One-rep-max table.** Its 100% row equals the unrounded estimate. The component keeps the estimate
  unrounded and rounds only for display. See `OneRm.TableShape`.
- **Low-calorie threshold.** In kJ mode it is the literal 5000, not 1200 kcal converted (5020.8 kJ).
  See `Goal.LowCalorieThresholdsDisagree`.

## Model

| member | source | states |
|---|---|---|
| Units.ConvertWeight | components/unit-context.tsx:27-32 | kg→lbs multiplies by 2.20462 and lbs→kg divides by it, equal units change nothing, and there-and-back is the identity; the conversion is linear and keeps sign and strict order (through `ConvertFactors`, `ConvertSameUnit`, `ConvertRoundTrip`, `ConvertWeightLinear` and `ConvertMonotone`) |
| Units.ConvertHeight | components/unit-context.tsx:34-39 | inches→cm multiplies by 2.54 and cm→inches divides by it, equal units change nothing, and there-and-back is the identity; the conversion is linear and keeps sign and strict order (through the same lemmas) |
| Units.ConvertEnergy | components/unit-context.tsx:41-46 | kcal→kJ multiplies by 4.184 and kJ→kcal divides by it, equal units change nothing, and there-and-back is the identity; the conversion is linear and keeps sign and strict order (through the same lemmas) |
| Units.DefaultIsMetric | components/unit-context.tsx:23-25 | the initial preference is kg, cm and kcal |
| Units.ConvertSameUnit | components/unit-context.tsx:27-46 | each converter returns its argument unchanged when both units are the same |
| Units.ConvertFactors | components/unit-context.tsx:27-46 | kg→lbs multiplies by 2.20462 and lbs→kg divides by it; inches→cm multiplies by 2.54 and cm→inches divides by it; kcal→kJ multiplies by 4.184 and kJ→kcal divides by it |
| Units.ConvertRoundTrip | components/unit-context.tsx:27-46 | converting to any unit and back gives the original value, for all three families |
| Units.ConvertCompose | components/unit-context.tsx:27-46 | converting through an intermediate unit is the same as converting directly |
| Units.ConvertWeightLinear | components/unit-context.tsx:27-32 | weight conversion is additive and commutes with scaling |
| Units.ConvertHeightLinear | components/unit-context.tsx:34-39 | height conversion is additive and commutes with scaling |
| Units.ConvertEnergyLinear | components/unit-context.tsx:41-46 | energy conversion is additive and commutes with scaling |
| Units.ConvertMonotone | components/unit-context.tsx:27-46 | conversion keeps positives positive, maps exactly 0 to 0 and preserves strict order |
| Units.InUnitsMonotone | components/goal-calculator.tsx:42-44 | the calculators' one-way conversions (a pound entry to kg, an inch entry to cm, a kcal amount to the display unit) preserve strict order |
| JsMath.Round | components/bmr-calculator.tsx:87-88 | the result is the integer within one half of the argument, a half rounded up |
| JsMath.RoundTenth | components/bmi-calculator.tsx:55 | the result is a whole number of tenths, within 0.05 of the argument, a half rounded up |
| JsMath.Max | components/body-fat-calculator.tsx:77 | the result is one of the two arguments and at least both |
| JsMath.Min | components/body-fat-calculator.tsx:77 | the result is one of the two arguments and at most both |
| JsMath.Abs | components/goal-calculator.tsx:73 | the result is non-negative and is the argument or its negation |
| JsMath.RoundUnique | components/bmi-calculator.tsx:55 | an integer within one half of x (upper half included) is Math.round(x) |
| JsMath.RoundMonotone | components/bmr-calculator.tsx:79-83 | rounding never reverses order |
| JsMath.RoundOfInteger | components/tdee-calculator.tsx:324 | an integer rounds to itself |
| JsMath.RoundShift | components/tdee-calculator.tsx:324-328 | rounding commutes with adding an integer |
| JsMath.RoundTenthMonotone | components/ideal-weight-calculator.tsx:74-83 | rounding to a tenth never reverses order |
| JsMath.RoundTenthShift | components/ideal-weight-calculator.tsx:69-83 | rounding to a tenth commutes with adding a whole number |
| Classifier.FirstMatch | components/bmi-calculator.tsx:46-52 | the index found belongs to a row containing the value, and no earlier row contains it; there is no index exactly when no row contains the value |
| Classifier.Classify | components/bmi-calculator.tsx:43-52 | the loop with its early break yields the label and description of the first containing row, or "Unknown" and "" |
| Classifier.AscendingMatchIsUnique | components/body-fat-calculator.tsx:79-89 | in a table whose rows ascend without overlap, a value inside row i gets exactly row i's label and description |
| Classifier.LabelIffRow | components/bmi-calculator.tsx:43-52 | in an ascending table with distinct labels, none "Unknown", a value gets row k's label exactly when row k contains it |
| Classifier.UnknownIffNoRow | components/body-fat-calculator.tsx:80-89 | with no row labelled "Unknown", the label is "Unknown" exactly when no row contains the value, and the description is then empty |
| Bmi.BodyMassIndex | components/bmi-calculator.tsx:38-40 | BMI times the squared height in metres is the weight in kilograms |
| Bmi.BmiOf | components/bmi-calculator.tsx:36-59 | the stored BMI, category and description depend only on the body, not on the units it is entered in (`BmiUnitIndependent`); 70 kg and 170 cm give 24.2, "Normal Weight" (`BmiExample`); the category comes from the unrounded BMI (`ClassifiedBeforeRounding`) |
| Bmi.BmiCalculator.constructor | components/bmi-calculator.tsx:19-21 | both inputs start empty and there is no result |
| Bmi.BmiCalculator.CalculateBmi | components/bmi-calculator.tsx:30-59 | with weight or height missing or zero the old result stays; otherwise the result is the rounded BMI of the converted inputs, with the category of the unrounded BMI |
| Bmi.BmiTableWellFormed | components/bmi-calculator.tsx:23-28 | the rows ascend without overlap and none is labelled "Unknown" |
| Bmi.BmiClassification | components/bmi-calculator.tsx:23-52 | each of the four labels is returned exactly inside its inclusive range; "Unknown" with no description exactly below 0, above 100 and in the three gaps between rows |
| Bmi.BmiBoundaries | components/bmi-calculator.tsx:24-26 | 18.5 is "Normal Weight", 18.4 is "Underweight", and 18.45, 24.95 and 29.95 are "Unknown" |
| Bmi.BmiExample | components/bmi-calculator.tsx:30-59 | 70 kg and 170 cm store BMI 24.2, "Normal Weight", "Healthy weight range" |
| Bmi.ClassifiedBeforeRounding | components/bmi-calculator.tsx:40-55 | a stored 25.0 can be "Unknown" (from 24.96), and so can a stored 18.5 (from 18.46) |
| Bmi.BmiUnitIndependent | components/bmi-calculator.tsx:36-40 | the same body entered in any units stores the same result |
| Bmr.MifflinStJeor | components/bmr-calculator.tsx:48-54 | the male value is 166 kcal above the female one for the same body (`MifflinSexGap`); it never falls as weight or height grows and never rises as age grows (`EquationsMonotone`); the TDEE calculator stores the same value in kcal mode (`Tdee.TdeeAgreesWithBmr`) |
| Bmr.HarrisBenedict | components/bmr-calculator.tsx:56-62 | it never falls as weight or height grows and never rises as age grows (`EquationsMonotone`) |
| Bmr.KatchMcArdle | components/bmr-calculator.tsx:64-69 | it exists exactly for a body fat strictly between 0 and 50 percent, and is then 370 + 21.6 × lean mass, above 370 for a positive weight (`KatchMcArdleDomain`) |
| Bmr.BmrCategory | components/bmr-calculator.tsx:71-76 | each of the five labels holds exactly on its half-open interval with bounds 1200, 1500, 1800 and 2200 (`BmrCategoryThresholds`) |
| Bmr.DailyCaloriesOf | components/bmr-calculator.tsx:78-84 | for a non-negative BMR the five rounded products never decrease from sedentary to very active (`DailyCaloriesOrdered`) |
| Bmr.StoredKatchMcArdle | components/bmr-calculator.tsx:89 | a skipped or zero Katch-McArdle value is not stored, and any other is stored rounded; with `KatchMcArdle` this gives `StoredKatchMcArdlePresence` |
| Bmr.BmrOf | components/bmr-calculator.tsx:44-92 | the handler stores exactly this (`BmrCalculator.CalculateBmr`); outside the body-fat range no Katch-McArdle value is stored, and inside it, for a positive weight, one is stored and is at least 370 (`StoredKatchMcArdlePresence`); the worked example stores 1618 (`BmrExample`) |
| Bmr.BmrCalculator.constructor | components/bmr-calculator.tsx:27-32 | all five inputs start empty and there is no result |
| Bmr.BmrCalculator.CalculateBmr | components/bmr-calculator.tsx:35-93 | with weight, height, age or gender missing the old result stays; otherwise the result holds the three rounded equations on the converted inputs, the category and the calories per activity level |
| Bmr.MifflinSexGap | components/bmr-calculator.tsx:48-53 | for the same body, the male Mifflin-St Jeor value is 166 kcal above the female one |
| Bmr.EquationsMonotone | components/bmr-calculator.tsx:48-61 | both equations rise with weight and height and fall with age |
| Bmr.KatchMcArdleDomain | components/bmr-calculator.tsx:63-68 | Katch-McArdle exists exactly for a body fat strictly between 0 and 50 percent; it is then 370 + 21.6 × lean mass, above 370 for a positive weight |
| Bmr.StoredKatchMcArdlePresence | components/bmr-calculator.tsx:63-89 | outside that body-fat range the stored result has no Katch-McArdle value; inside it, for a positive weight, the stored value is at least 370 |
| Bmr.BmrCategoryThresholds | components/bmr-calculator.tsx:71-76 | each of the five labels holds exactly on its half-open interval with bounds 1200, 1500, 1800 and 2200 |
| Bmr.DailyCaloriesOrdered | components/bmr-calculator.tsx:78-84 | for a non-negative BMR the calories never decrease from sedentary to very active |
| Bmr.BmrExample | components/bmr-calculator.tsx:35-93 | a man of 70 kg, 170 cm and 30 years stores 1618, 1672, no Katch-McArdle, "Average" and 1941/2224/2507/2790/3073 |
| Bmr.CategoryBeforeRounding | components/bmr-calculator.tsx:72-87 | 1199.6 is stored as 1200 yet is "Low Metabolic Rate" |
| Tdee.FindById | components/tdee-calculator.tsx:69 | the index found holds the id and no earlier activity does; there is none exactly when no activity has the id |
| Tdee.RemoveById | components/tdee-calculator.tsx:112 | the list left holds no activity with the id, holds only listed activities, and keeps every activity with another id |
| Tdee.ActivityFactor | components/tdee-calculator.tsx:65-73 | a preset level gives its table factor; a custom level gives the listed activity's factor, or 1.2 when none has the id, so every factor lies in [1.0, 3.0] for valid activities (`ActivityFactorBounds`, `RemovedIdFallsBack`) |
| Tdee.DefaultFactor | components/tdee-calculator.tsx:38-44 | the five preset factors lie in [1.0, 3.0] (`ActivityFactorBounds`) and are exactly the goal form's five factors (`Goal.ActivityFactorsMatchTdee`) |
| Tdee.TdeeCategory | components/tdee-calculator.tsx:77-81 | each of the four labels holds exactly on its interval with bounds 1500, 2000 and 2500 (`TdeeCategoryThresholds`) |
| Tdee.TdeeOf | components/tdee-calculator.tsx:54-90 | the handler stores exactly this (`TdeeCalculator.CalculateTdee`); its BMR is the BMR calculator's in kcal mode (`TdeeAgreesWithBmr`); for a non-negative BMR and a factor of at least 1 its TDEE is at least its BMR (`TdeeAtLeastBmr`) |
| Tdee.TdeeCalculator.constructor | components/tdee-calculator.tsx:26-35 | every input starts empty, the custom list is empty, the form is hidden and there is no result; the invariant `Valid` holds |
| Tdee.TdeeCalculator.CalculateTdee | components/tdee-calculator.tsx:46-92 | with weight, height, age, gender or level missing the old result stays; otherwise the result is the Mifflin-St Jeor BMR times the selected factor, rounded in the caller's energy unit, with the category of the kcal TDEE |
| Tdee.TdeeCalculator.AddCustomActivity | components/tdee-calculator.tsx:94-109 | a non-empty name with a factor from 1.0 to 3.0 appends exactly that activity under the fresh id, clears both form fields and hides the form; otherwise nothing changes; every listed activity stays valid |
| Tdee.TdeeCalculator.RemoveCustomActivity | components/tdee-calculator.tsx:111-116 | the list becomes the filtered list; the selected level is cleared exactly when it named the removed id |
| Tdee.RemoveByIdConcat | components/tdee-calculator.tsx:112 | filtering distributes over concatenation, so the kept activities keep their order |
| Tdee.RemoveByIdAbsent | components/tdee-calculator.tsx:112 | removing an id no activity has leaves the list unchanged |
| Tdee.RemoveByIdIdempotent | components/tdee-calculator.tsx:112 | removing the same id twice is removing it once |
| Tdee.RemovedIdFallsBack | components/tdee-calculator.tsx:67-70 | after removal the id is never found, so a level still naming it uses the factor 1.2 |
| Tdee.ActivityFactorBounds | components/tdee-calculator.tsx:65-73 | when every listed activity passed the form's check, every selectable factor lies in [1.0, 3.0], and a found custom activity supplies its own factor |
| Tdee.TdeeCategoryThresholds | components/tdee-calculator.tsx:77-81 | each of the four labels holds exactly on its interval with bounds 1500, 2000 and 2500 |
| Tdee.TdeeAgreesWithBmr | components/tdee-calculator.tsx:57-63 | in kcal mode the TDEE calculator stores the same BMR as the BMR calculator for the same inputs |
| Tdee.TdeeAtLeastBmr | components/tdee-calculator.tsx:75-89 | for a non-negative BMR and a factor of at least 1, the stored TDEE is at least the stored BMR in either energy unit |
| Tdee.RoundedEnergyMonotone | components/tdee-calculator.tsx:75-89 | converting two kcal amounts to the display unit and rounding them keeps their order |
| Tdee.MaintenanceOffsets | components/tdee-calculator.tsx:324-328 | 2092 kJ is exactly 500 kcal converted; the loss and gain intakes lie 500 kcal or 2092 kJ below and above the stored TDEE |
| Tdee.EnergyOffset | components/tdee-calculator.tsx:324-328 | the offset is 500 in kcal mode and 2092 in kJ mode, which is 500 kcal converted (`MaintenanceOffsets`) |
| Tdee.LossIntake | components/tdee-calculator.tsx:324 | the loss intake lies exactly the offset below the stored TDEE (`MaintenanceOffsets`) |
| Tdee.GainIntake | components/tdee-calculator.tsx:328 | the gain intake lies exactly the offset above the stored TDEE (`MaintenanceOffsets`) |
| BodyFat.NavyEquation | components/body-fat-calculator.tsx:70-75 | both equations have a positive coefficient on the girth logarithm, so for a non-decreasing logarithm a larger girth never lowers the percentage (`PercentageMonotoneInGirth`) |
| BodyFat.Girth | components/body-fat-calculator.tsx:71-74 | waist − neck for men and waist + hip − neck for women; a negative girth gives NaN and a zero one 0 percent (`OutOfDomainGirth`), and a larger girth never lowers the percentage (`PercentageMonotoneInGirth`) |
| BodyFat.Percentage | components/body-fat-calculator.tsx:70-77 | every value lies in [0, 100] (`StoredPercentageBounds`); a negative argument gives NaN, a zero girth 0 percent and a zero height 100 percent, or NaN with a zero girth (`OutOfDomainGirth`); it never decreases in the girth (`PercentageMonotoneInGirth`) |
| BodyFat.BodyFatOf | components/body-fat-calculator.tsx:63-96 | the handler stores exactly this (`BodyFatCalculator.CalculateBodyFat`); the stored percentage lies in [0, 100] (`StoredPercentageBounds`) |
| BodyFat.BodyFatCalculator.constructor | components/body-fat-calculator.tsx:20-25 | all five inputs start empty and there is no result |
| BodyFat.Clamp | components/body-fat-calculator.tsx:77 | the result lies in [0, 100]; a value inside is kept, a value below gives 0 and a value above gives 100 |
| BodyFat.BodyFatCalculator.CalculateBodyFat | components/body-fat-calculator.tsx:54-96 | with height, waist, neck or gender missing, or a woman's hip missing, the old result stays; otherwise the result is the Navy percentage of the converted girths (hip 0 for men), clamped, classified on the gender's table and rounded to a tenth |
| BodyFat.TablesWellFormed | components/body-fat-calculator.tsx:27-52 | both tables ascend without overlap and carry no "Unknown" label |
| BodyFat.MaleLabelsDistinct | components/body-fat-calculator.tsx:28-39 | no two rows of the male table share a label |
| BodyFat.FemaleLabelsDistinct | components/body-fat-calculator.tsx:40-51 | no two rows of the female table share a label |
| BodyFat.MaleClassification | components/body-fat-calculator.tsx:28-39 | each male label is returned exactly inside its range; "Unknown" exactly below 2, above 100 and in the four gaps |
| BodyFat.FemaleClassification | components/body-fat-calculator.tsx:40-51 | each female label is returned exactly inside its range; "Unknown" exactly below 10, above 100 and in the four gaps |
| BodyFat.StoredPercentageBounds | components/body-fat-calculator.tsx:77-92 | whatever the logarithm, a stored percentage lies in [0, 100] after clamp and rounding |
| BodyFat.OutOfDomainGirth | components/body-fat-calculator.tsx:70-77 | a negative girth gives NaN (no percentage); with a positive height a zero girth gives 0 percent; a zero height gives 100 percent, or NaN with a zero girth; 0 percent is "Unknown" for both genders |
| BodyFat.PercentageMonotoneInGirth | components/body-fat-calculator.tsx:70-77 | for a non-decreasing logarithm and a positive height, a larger girth never gives a lower percentage, for both genders |
| IdealWeight.Estimates | components/ideal-weight-calculator.tsx:39-57 | each estimate is at least its floor, equals it at or below five feet and exceeds it above (`EstimatesFloor`); it never falls with height (`EstimatesMonotone`); a man's estimate is strictly above a woman's (`MaleAboveFemale`) |
| IdealWeight.IdealWeightOf | components/ideal-weight-calculator.tsx:33-85 | the handler stores exactly this (`IdealWeightCalculator.CalculateIdealWeight`); the same height in either unit stores the same result (`HeightUnitIndependent`); every stored value lies the margin inside the stored range (`RangeBrackets`) |
| IdealWeight.IdealWeightCalculator.constructor | components/ideal-weight-calculator.tsx:22-24 | both inputs start empty and there is no result |
| IdealWeight.Least | components/ideal-weight-calculator.tsx:70 | the result is one of the four estimates and at most each of them |
| IdealWeight.Greatest | components/ideal-weight-calculator.tsx:71 | the result is one of the four estimates and at least each of them |
| IdealWeight.IdealWeightCalculator.CalculateIdealWeight | components/ideal-weight-calculator.tsx:27-85 | with the height missing or zero, or no gender, the old result stays; otherwise the result holds the four floored estimates in the caller's unit, their average and the range, each rounded to a tenth |
| IdealWeight.EstimatesFloor | components/ideal-weight-calculator.tsx:39-57 | every estimate is at least its floor; at or below five feet all four equal their floors; above five feet each equals its unfloored formula and exceeds the floor |
| IdealWeight.FiveFeet | components/ideal-weight-calculator.tsx:34-35 | the height above five feet is non-positive exactly for heights up to 152.4 cm |
| IdealWeight.EstimatesMonotone | components/ideal-weight-calculator.tsx:39-57 | a taller person never gets a lower estimate from any formula |
| IdealWeight.MaleAboveFemale | components/ideal-weight-calculator.tsx:39-57 | at every height each formula gives a man a strictly higher estimate than a woman |
| IdealWeight.PoundsCommute | components/ideal-weight-calculator.tsx:60-71 | converting the four estimates to pounds converts their mean, minimum and maximum alike |
| IdealWeight.RangeBrackets | components/ideal-weight-calculator.tsx:67-83 | after rounding, every stored estimate and the stored average lie at least the margin (5 kg or 11 lbs) inside the stored range |
| IdealWeight.MarginsAreSeparateConstants | components/ideal-weight-calculator.tsx:70-71 | 5 kg converts to 11.0231 lbs, more than the 11 lbs margin the pound range uses |
| IdealWeight.HeightUnitIndependent | components/ideal-weight-calculator.tsx:33-35 | the same height entered in inches or centimetres stores the same result |
| IdealWeight.FiveFeetWomanExample | components/ideal-weight-calculator.tsx:27-85 | a woman of 152.4 cm stores 45.5, 49.0, 53.1 and 45.5, average 48.3 and range 40.5 to 58.1 kg |
| OneRm.Epley | components/one-rm-calculator.tsx:26 | for a positive weight the estimate exceeds the weight for positive reps and grows strictly with the reps (`EpleyExceedsWeight`); it converts with the weight's unit (`UnitAgnostic`) |
| OneRm.PercentageTable | components/one-rm-calculator.tsx:28-31 | the stored table has ten rows in the percentages' order, each that share of the estimate (`TableShape`), with strictly increasing weights (`TableIncreasing`) |
| OneRm.IntensityLabel | components/one-rm-calculator.tsx:51-57 | each of the five labels holds exactly on its interval with bounds 60, 70, 80 and 90 (`IntensityThresholds`) |
| OneRm.OneRmOf | components/one-rm-calculator.tsx:24-36 | a result exists exactly under the guard, holding the Epley estimate, above the weight (`StoredEstimate`) |
| OneRm.OneRmCalculator.constructor | components/one-rm-calculator.tsx:15-17 | the inputs start at 100 and 5 with no result |
| OneRm.OneRmCalculator.CalculateOneRm | components/one-rm-calculator.tsx:23-37 | the result is set exactly when weight > 0 and 0 < reps ≤ 15, to the Epley estimate and its table, and is reset to null otherwise |
| OneRm.EpleyExceedsWeight | components/one-rm-calculator.tsx:26 | for a positive weight the estimate exceeds the weight when reps > 0 and grows strictly with the reps |
| OneRm.StoredEstimate | components/one-rm-calculator.tsx:24-36 | a result exists exactly under the guard, and its estimate is the Epley value, above the weight |
| OneRm.TableShape | components/one-rm-calculator.tsx:21-31 | the table has 10 rows in the order of the percentages, each that share of the estimate; the 50% row is half and the 100% row the estimate |
| OneRm.PercentagesIncrease | components/one-rm-calculator.tsx:20 | every earlier training percentage is below every later one |
| OneRm.SharesIncrease | components/one-rm-calculator.tsx:27-30 | for a positive estimate, a table over strictly increasing percentages has strictly increasing weights |
| OneRm.TableIncreasing | components/one-rm-calculator.tsx:20-30 | for a positive estimate the weights strictly increase down the stored table |
| OneRm.DefaultInputsExample | components/one-rm-calculator.tsx:15-31 | 100 for 5 reps estimates 350/3 (116.67), and the table starts at 175/3 |
| OneRm.UnitAgnostic | components/one-rm-calculator.tsx:24-26 | entering the weight in the other unit does not change the guard's verdict, and it converts the estimate alike |
| OneRm.IntensityThresholds | components/one-rm-calculator.tsx:51-57 | each of the five labels holds exactly on its interval with bounds 60, 70, 80 and 90 |
| OneRm.TableLabels | components/one-rm-calculator.tsx:21-57 | down the table the labels are Warm-up, Light ×2, Moderate ×2, Heavy ×2, Max Effort ×3 |
| Goal.GoalOf | components/goal-calculator.tsx:40-86 | the handler stores exactly this (`GoalCalculator.CalculateGoal`); the weekly deficit times the weeks is 7700 kcal per kg to lose (`BudgetBalances`); its signs follow the goal type (`DeficitFollowsGoalType`) |
| Goal.GoalCalculator.GoalType | components/goal-calculator.tsx:93-97 | loss, gain and maintain hold exactly when the current weight is above, below or equal to the target (`GoalTypeExclusive`) |
| Goal.GoalCalculator.SafetyWarning | components/goal-calculator.tsx:113-128 | no warning without a result, the aggressive-loss warning exactly for a too fast loss, otherwise the low-calorie warning exactly below the threshold (`SafetyWarningCases`) |
| Goal.MaxSafeWeeklyLoss | components/goal-calculator.tsx:117 | the safe weekly loss is 1 in kg mode and 2.2 in lbs mode (`SafetyWarningCases`) |
| Goal.LowCalorieThreshold | components/goal-calculator.tsx:123 | the threshold is 1200 in kcal mode and the literal 5000 in kJ mode, below 1200 kcal converted (`SafetyWarningCases`, `LowCalorieThresholdsDisagree`) |
| Goal.ExceedsWeeklyRate | components/goal-calculator.tsx:116-119 | the weekly change exceeds the limit as floating point decides it, including a zero timeframe; it decides the aggressive-loss warning (`SafetyWarningCases`) |
| Goal.GoalCalculator.constructor | components/goal-calculator.tsx:21-28 | the inputs start at 70, 65, 170, 30, male, 1.55 and 12 weeks with no result |
| Goal.GoalCalculator.CalculateGoal | components/goal-calculator.tsx:39-87 | the result is set exactly when all five numeric inputs are positive, to the budget of the converted inputs, and is reset to null otherwise |
| Goal.BudgetBalances | components/goal-calculator.tsx:39-87 | a result exists exactly for positive inputs; its BMR is Mifflin-St Jeor, its TDEE is BMR × factor, the weekly deficit times the weeks is 7700 kcal per kg to lose, and the target is TDEE less a seventh of the weekly deficit, in the caller's energy unit |
| Goal.EqualWeightsMaintain | components/goal-calculator.tsx:56-62 | equal current and target weights give weekly and daily deficits of 0 and a target equal to the TDEE |
| Goal.DailyDeficitNonNegative | components/goal-calculator.tsx:72-73 | the stored daily deficit is never negative, in either energy unit |
| Goal.GoalFromSigns | components/goal-calculator.tsx:55-73 | for a positive number of weeks the weekly deficit has the sign of the kg to lose, and the target is below the TDEE exactly when that is positive and above it exactly when it is negative |
| Goal.DeficitFollowsGoalType | components/goal-calculator.tsx:56-62 | the weekly deficit is positive exactly for a loss goal and negative exactly for a gain goal; the target is below the TDEE exactly for a loss and above it exactly for a gain, whatever the units |
| Goal.GoalTypeExclusive | components/goal-calculator.tsx:93-97 | loss, gain and maintain hold exactly when the current weight is above, below or equal to the target, so exactly one holds |
| Goal.SafetyWarningCases | components/goal-calculator.tsx:113-128 | no warning without a result; the aggressive-loss warning exactly for a loss faster than 1 kg or 2.2 lbs a week; then the low-calorie warning exactly for a target below 1200 kcal or 5000 kJ; otherwise none |
| Goal.NoAggressiveWarningUnlessLoss | components/goal-calculator.tsx:119-121 | gain and maintenance goals never get the aggressive-loss warning |
| Goal.LowCalorieThresholdsDisagree | components/goal-calculator.tsx:123 | 1200 kcal is 5020.8 kJ, so a target from 5000/4.184 up to 1200 kcal warns in kcal mode but not in kJ mode |
| Goal.ActivityFactorsMatchTdee | components/goal-calculator.tsx:31-37 | the goal form's five factors are the TDEE calculator's five preset factors |
| Goal.DefaultInputsExample | components/goal-calculator.tsx:21-87 | the initial inputs give BMR 1617.5, TDEE 2507.125, a weekly deficit of 38500/12 kcal and a target 38500/84 kcal below the TDEE, reached 84 days later |

## Left out

- Rendering is not modelled: the JSX of every calculator, the colour helpers (`getCategoryColor`, `getGoalColor`, `getIntensityColor`), the goal labels and the `toFixed` formatting.
- The `useEffect` auto-recompute is not modelled. Handlers are methods called explicitly.
- The `useUnits` context lookup and its throw outside a provider (components/unit-context.tsx:67-73) are not modelled. The unit preference is a parameter of each handler.
- The unit setters are not modelled.
- Input parsing (`Number.parseFloat`, `Number.parseInt`, `Number`) is not modelled. In the five components that parse in the handler, fields arrive parsed; an unparsable entry is NaN, which is falsy like 0, so it is `None` or `Some(0)`.
- NaN has no counterpart in `OneRm.OneRmCalculator` and `Goal.GoalCalculator`, whose fields are `real`. Their handler guards reject NaN exactly as they reject 0, so no stored result differs. `getGoalType` returns "maintain" when a weight is NaN, because both comparisons are false; no pair of real weights gives that answer unless they are equal.
- Floating-point rounding error is not modelled: arithmetic is on exact reals. `Math.round` is exact, halves rounded up.
- `Math.log10` has no Dafny counterpart, so it is a parameter `log10`. Only `PercentageMonotoneInGirth` assumes anything of it: that it never decreases on positive numbers. No lemma pins its values, so no body-fat percentage is stated numerically.
- The NaN and -Infinity arguments of the logarithm are modelled by their effect, not by floating-point values (see above).
- The warning texts of `getSafetyWarning` are not modelled as strings: `Goal.GoalCalculator.SafetyWarning` returns which of the two warnings applies.
- The goal's target date is a day number, `today + 7 × weeks` on reals, with `today` a parameter. `setDate`'s truncation of fractional days and `toLocaleDateString` are not modelled (clock and locale).
- The `Date.now()` id of a custom activity is a parameter. Its freshness is not enforced; removal drops every activity with the id.
- The form buttons that toggle `showCustomForm` are not modelled, and neither are the other input setters: they are JSX.
- Tdee.TdeeAgreesWithBmr: stated for kcal mode only. In kJ mode the TDEE calculator rounds the converted BMR, which the BMR calculator never computes.
- Gender is a two-valued datatype and activity levels are a closed datatype. Other strings cannot occur, so the source's failing table lookups on unknown keys are not modelled.
- The goal form's activity level is the parsed factor. The model does not restrict it to the five values of the select list.
