/** The fixed unit catalogue of the converter: the seven categories, the units
    listed under each, the scale factors of the six linear categories and the
    three temperature scales. Names are the exact strings the converter shows
    and dispatches on. */
module UnitCatalogue {

  datatype Option<T> = None | Some(value: T)

  /** The categories in the order the catalogue lists them. */
  const Categories: seq<string> :=
    ["Length", "Weight", "Temperature", "Volume", "Area", "Time", "Digital Storage"]

  /** The units listed under each category, in display order. */
  const Units: map<string, seq<string>> := map[
    "Length" := ["Meter (m)", "Kilometer (km)", "Centimeter (cm)", "Millimeter (mm)",
                 "Mile (mi)", "Yard (yd)", "Foot (ft)", "Inch (in)"],
    "Weight" := ["Kilogram (kg)", "Gram (g)", "Milligram (mg)", "Pound (lb)", "Ounce (oz)"],
    "Temperature" := ["Celsius (°C)", "Fahrenheit (°F)", "Kelvin (K)"],
    "Volume" := ["Liter (L)", "Milliliter (mL)", "Gallon (gal)", "Quart (qt)", "Pint (pt)", "Cup (cup)"],
    "Area" := ["Square Meter (m²)", "Square Kilometer (km²)", "Square Foot (ft²)",
               "Square Inch (in²)", "Acre (ac)", "Hectare (ha)"],
    "Time" := ["Second (s)", "Minute (min)", "Hour (hr)", "Day (day)", "Week (week)",
               "Month (month)", "Year (year)"],
    "Digital Storage" := ["Byte (B)", "Kilobyte (KB)", "Megabyte (MB)", "Gigabyte (GB)", "Terabyte (TB)"]
  ]

  // Scale factors: how many reference units (meter, kilogram, liter, square
  // meter, second, byte) one unit is worth.

  const LengthFactors: map<string, real> := map[
    "Meter (m)" := 1.0, "Kilometer (km)" := 1000.0, "Centimeter (cm)" := 0.01,
    "Millimeter (mm)" := 0.001, "Mile (mi)" := 1609.34, "Yard (yd)" := 0.9144,
    "Foot (ft)" := 0.3048, "Inch (in)" := 0.0254
  ]

  const WeightFactors: map<string, real> := map[
    "Kilogram (kg)" := 1.0, "Gram (g)" := 0.001, "Milligram (mg)" := 0.000001,
    "Pound (lb)" := 0.453592, "Ounce (oz)" := 0.0283495
  ]

  const VolumeFactors: map<string, real> := map[
    "Liter (L)" := 1.0, "Milliliter (mL)" := 0.001, "Gallon (gal)" := 3.78541,
    "Quart (qt)" := 0.946353, "Pint (pt)" := 0.473176, "Cup (cup)" := 0.24
  ]

  const AreaFactors: map<string, real> := map[
    "Square Meter (m²)" := 1.0, "Square Kilometer (km²)" := 1000000.0,
    "Square Foot (ft²)" := 0.092903, "Square Inch (in²)" := 0.00064516,
    "Acre (ac)" := 4046.86, "Hectare (ha)" := 10000.0
  ]

  /** Month and Year are nominal: 30 and 365 days. */
  const TimeFactors: map<string, real> := map[
    "Second (s)" := 1.0, "Minute (min)" := 60.0, "Hour (hr)" := 3600.0,
    "Day (day)" := 86400.0, "Week (week)" := 604800.0,
    "Month (month)" := 2592000.0, "Year (year)" := 31536000.0
  ]

  const StorageFactors: map<string, real> := map[
    "Byte (B)" := 1.0, "Kilobyte (KB)" := 1024.0, "Megabyte (MB)" := 1048576.0,
    "Gigabyte (GB)" := 1073741824.0, "Terabyte (TB)" := 1099511627776.0
  ]

  /** How a category's units are related: by a table of scale factors, or by
      the affine temperature formulas pivoting on Celsius. */
  datatype Family = Linear(factors: map<string, real>) | Affine

  ghost predicate PositiveFactors(f: map<string, real>) {
    forall u :: u in f ==> f[u] > 0.0
  }

  /** The category dispatch of the converter; None is the "not supported" case. */
  function FamilyOf(category: string): (r: Option<Family>)
    ensures r.Some? <==> category in Units
    ensures r == Some(Affine) <==> category == "Temperature"
  {
    if category == "Length" then Some(Linear(LengthFactors))
    else if category == "Weight" then Some(Linear(WeightFactors))
    else if category == "Temperature" then Some(Affine)
    else if category == "Volume" then Some(Linear(VolumeFactors))
    else if category == "Area" then Some(Linear(AreaFactors))
    else if category == "Time" then Some(Linear(TimeFactors))
    else if category == "Digital Storage" then Some(Linear(StorageFactors))
    else None
  }

  /** Every factor table the dispatch can select is strictly positive, so the
      division by the target unit's factor is always defined. */
  lemma LinearFactorsPositive(category: string)
    requires FamilyOf(category).Some? && FamilyOf(category).value.Linear?
    ensures PositiveFactors(FamilyOf(category).value.factors)
  {
    match category
    case "Length" => LengthPositive();
    case "Weight" => WeightPositive();
    case "Volume" => VolumePositive();
    case "Area" => AreaPositive();
    case "Time" => TimePositive();
    case "Digital Storage" => StoragePositive();
  }

  // One lemma per table keeps each proof small.
  lemma LengthPositive() ensures PositiveFactors(LengthFactors) {}
  lemma WeightPositive() ensures PositiveFactors(WeightFactors) {}
  lemma VolumePositive() ensures PositiveFactors(VolumeFactors) {}
  lemma AreaPositive() ensures PositiveFactors(AreaFactors) {}
  lemma TimePositive() ensures PositiveFactors(TimeFactors) {}
  lemma StoragePositive() ensures PositiveFactors(StorageFactors) {}

  datatype TempScale = Celsius | Fahrenheit | Kelvin

  /** The temperature unit a name stands for, if any. */
  function TempScaleOf(unit: string): (r: Option<TempScale>)
    ensures r.Some? <==> unit in Units["Temperature"]
  {
    if unit == "Celsius (°C)" then Some(Celsius)
    else if unit == "Fahrenheit (°F)" then Some(Fahrenheit)
    else if unit == "Kelvin (K)" then Some(Kelvin)
    else None
  }

  /** True when the converter has a factor or a formula for `unit` in `category`. */
  predicate HasRule(category: string, unit: string) {
    match FamilyOf(category)
    case None => false
    case Some(Linear(f)) => unit in f
    case Some(Affine) => TempScaleOf(unit).Some?
  }
}
