/** The unit preference and the three two-way unit converters every calculator uses. */
module Units {

  datatype WeightUnit = Kg | Lbs
  datatype HeightUnit = Cm | Inches
  datatype EnergyUnit = Kcal | KJ

  /** The caller's choice of units, held by the unit context. */
  datatype UnitPreference = UnitPreference(weightUnit: WeightUnit, heightUnit: HeightUnit, energyUnit: EnergyUnit)

  /** The preference the unit context starts with. */
  const DefaultPreference: UnitPreference := UnitPreference(Kg, Cm, Kcal)

  /** Pounds in one kilogram. */
  const LbsPerKg: real := 2.20462
  /** Centimetres in one inch. */
  const CmPerInch: real := 2.54
  /** Kilojoules in one kilocalorie. */
  const KjPerKcal: real := 4.184

  function ConvertWeight(value: real, from: WeightUnit, to: WeightUnit): real
  {
    if from == to then value
    else if from == Kg && to == Lbs then value * LbsPerKg
    else if from == Lbs && to == Kg then value / LbsPerKg
    else value
  }

  function ConvertHeight(value: real, from: HeightUnit, to: HeightUnit): real
  {
    if from == to then value
    else if from == Cm && to == Inches then value / CmPerInch
    else if from == Inches && to == Cm then value * CmPerInch
    else value
  }

  function ConvertEnergy(value: real, from: EnergyUnit, to: EnergyUnit): real
  {
    if from == to then value
    else if from == Kcal && to == KJ then value * KjPerKcal
    else if from == KJ && to == Kcal then value / KjPerKcal
    else value
  }

  /** A weight entered in the caller's unit, in the kilograms the equations use. */
  function InKg(weight: real, unit: WeightUnit): real
  {
    if unit == Lbs then ConvertWeight(weight, Lbs, Kg) else weight
  }

  /** A height entered in the caller's unit, in the centimetres the equations use. */
  function InCm(height: real, unit: HeightUnit): real
  {
    if unit == Inches then ConvertHeight(height, Inches, Cm) else height
  }

  /** A kcal amount as displayed: converted to kJ when that unit is selected. */
  function InEnergyUnit(kcal: real, unit: EnergyUnit): real
  {
    if unit == KJ then ConvertEnergy(kcal, Kcal, KJ) else kcal
  }

  /** The context starts in kilograms, centimetres and kilocalories. */
  lemma DefaultIsMetric()
    ensures DefaultPreference.weightUnit == Kg
    ensures DefaultPreference.heightUnit == Cm
    ensures DefaultPreference.energyUnit == Kcal
  {
  }

  /** Converting into the unit one already has returns the value unchanged. */
  lemma ConvertSameUnit(v: real, w: WeightUnit, h: HeightUnit, e: EnergyUnit)
    ensures ConvertWeight(v, w, w) == v
    ensures ConvertHeight(v, h, h) == v
    ensures ConvertEnergy(v, e, e) == v
  {
  }

  /** The factors are exactly the stated constants, in both directions. */
  lemma ConvertFactors(v: real)
    ensures ConvertWeight(v, Kg, Lbs) == v * 2.20462 && ConvertWeight(v, Lbs, Kg) * 2.20462 == v
    ensures ConvertHeight(v, Inches, Cm) == v * 2.54 && ConvertHeight(v, Cm, Inches) * 2.54 == v
    ensures ConvertEnergy(v, Kcal, KJ) == v * 4.184 && ConvertEnergy(v, KJ, Kcal) * 4.184 == v
  {
  }

  /** A round trip through any other unit returns the original value exactly. */
  lemma ConvertRoundTrip(v: real, w1: WeightUnit, w2: WeightUnit, h1: HeightUnit, h2: HeightUnit,
                         e1: EnergyUnit, e2: EnergyUnit)
    ensures ConvertWeight(ConvertWeight(v, w1, w2), w2, w1) == v
    ensures ConvertHeight(ConvertHeight(v, h1, h2), h2, h1) == v
    ensures ConvertEnergy(ConvertEnergy(v, e1, e2), e2, e1) == v
  {
  }

  /** Converting in two steps is converting in one. */
  lemma ConvertCompose(v: real, w1: WeightUnit, w2: WeightUnit, w3: WeightUnit, h1: HeightUnit, h2: HeightUnit,
                       h3: HeightUnit, e1: EnergyUnit, e2: EnergyUnit, e3: EnergyUnit)
    ensures ConvertWeight(ConvertWeight(v, w1, w2), w2, w3) == ConvertWeight(v, w1, w3)
    ensures ConvertHeight(ConvertHeight(v, h1, h2), h2, h3) == ConvertHeight(v, h1, h3)
    ensures ConvertEnergy(ConvertEnergy(v, e1, e2), e2, e3) == ConvertEnergy(v, e1, e3)
  {
  }

  /** The weight converter is additive and homogeneous (linear). */
  lemma ConvertWeightLinear(a: real, b: real, k: real, w1: WeightUnit, w2: WeightUnit)
    ensures ConvertWeight(a + b, w1, w2) == ConvertWeight(a, w1, w2) + ConvertWeight(b, w1, w2)
    ensures ConvertWeight(k * a, w1, w2) == k * ConvertWeight(a, w1, w2)
  {
    if w1 == Lbs && w2 == Kg {
      assert (k * a) / LbsPerKg == k * (a / LbsPerKg);
    }
  }

  /** The height converter is additive and homogeneous (linear). */
  lemma ConvertHeightLinear(a: real, b: real, k: real, h1: HeightUnit, h2: HeightUnit)
    ensures ConvertHeight(a + b, h1, h2) == ConvertHeight(a, h1, h2) + ConvertHeight(b, h1, h2)
    ensures ConvertHeight(k * a, h1, h2) == k * ConvertHeight(a, h1, h2)
  {
    if h1 == Cm && h2 == Inches {
      assert (k * a) / CmPerInch == k * (a / CmPerInch);
    }
  }

  /** The energy converter is additive and homogeneous (linear). */
  lemma ConvertEnergyLinear(a: real, b: real, k: real, e1: EnergyUnit, e2: EnergyUnit)
    ensures ConvertEnergy(a + b, e1, e2) == ConvertEnergy(a, e1, e2) + ConvertEnergy(b, e1, e2)
    ensures ConvertEnergy(k * a, e1, e2) == k * ConvertEnergy(a, e1, e2)
  {
    if e1 == KJ && e2 == Kcal {
      assert (k * a) / KjPerKcal == k * (a / KjPerKcal);
    }
  }

  /** Each converter preserves sign and order: it multiplies by a positive factor. */
  lemma ConvertMonotone(a: real, b: real, w1: WeightUnit, w2: WeightUnit, h1: HeightUnit, h2: HeightUnit,
                        e1: EnergyUnit, e2: EnergyUnit)
    ensures a > 0.0 ==> ConvertWeight(a, w1, w2) > 0.0 && ConvertHeight(a, h1, h2) > 0.0 && ConvertEnergy(a, e1, e2) > 0.0
    ensures a == 0.0 <==> ConvertWeight(a, w1, w2) == 0.0
    ensures a == 0.0 <==> ConvertHeight(a, h1, h2) == 0.0
    ensures a == 0.0 <==> ConvertEnergy(a, e1, e2) == 0.0
    ensures a < b ==> ConvertWeight(a, w1, w2) < ConvertWeight(b, w1, w2)
    ensures a < b ==> ConvertHeight(a, h1, h2) < ConvertHeight(b, h1, h2)
    ensures a < b ==> ConvertEnergy(a, e1, e2) < ConvertEnergy(b, e1, e2)
  {
  }

  /** The conversions into the equations' units and into the displayed energy unit preserve strict order. */
  lemma InUnitsMonotone(a: real, b: real, w: WeightUnit, h: HeightUnit, e: EnergyUnit)
    requires a < b
    ensures InKg(a, w) < InKg(b, w)
    ensures InCm(a, h) < InCm(b, h)
    ensures InEnergyUnit(a, e) < InEnergyUnit(b, e)
  {
    ConvertMonotone(a, b, Lbs, Kg, Inches, Cm, Kcal, KJ);
  }
}
