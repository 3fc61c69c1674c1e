/** What the converter guarantees: the catalogue and the conversion rules agree,
    so only bad input or an unknown category or unit can fail; conversions are
    exact, invertible, composable and order-preserving; and the well-known
    values come out of the tables. */
module ConversionProperties {
  import opened UnitCatalogue
  import opened UnitConversion

  // ---------------------------------------------------------------------------
  // The catalogue against the conversion rules

  /** The units listed under a category are exactly the keys of a factor table. */
  ghost predicate ListsExactly(units: seq<string>, f: map<string, real>) {
    forall u :: u in units <==> u in f
  }

  /** The first unit of a list is the reference unit of a factor table: its
      factor is 1, and no other unit's factor is. */
  ghost predicate ReferenceFirst(units: seq<string>, f: map<string, real>) {
    && |units| > 0 && units[0] in f && f[units[0]] == 1.0
    && forall u :: u in f && f[u] == 1.0 ==> u == units[0]
  }

  // One lemma per linear category keeps each proof small.
  lemma LengthListed()
    ensures ListsExactly(Units["Length"], LengthFactors) && ReferenceFirst(Units["Length"], LengthFactors)
  {}
  lemma WeightListed()
    ensures ListsExactly(Units["Weight"], WeightFactors) && ReferenceFirst(Units["Weight"], WeightFactors)
  {}
  lemma VolumeListed()
    ensures ListsExactly(Units["Volume"], VolumeFactors) && ReferenceFirst(Units["Volume"], VolumeFactors)
  {}
  lemma AreaListed()
    ensures ListsExactly(Units["Area"], AreaFactors) && ReferenceFirst(Units["Area"], AreaFactors)
  {}
  lemma TimeListed()
    ensures ListsExactly(Units["Time"], TimeFactors) && ReferenceFirst(Units["Time"], TimeFactors)
  {}
  lemma StorageListed()
    ensures ListsExactly(Units["Digital Storage"], StorageFactors)
    ensures ReferenceFirst(Units["Digital Storage"], StorageFactors)
  {}

  /** The ordered category list names each catalogue category exactly once,
      and the catalogue lists 8, 5, 3, 6, 6, 7 and 5 units under them. */
  lemma CatalogueShape()
    ensures forall c :: c in Categories <==> c in Units
    ensures forall i, j :: 0 <= i < j < |Categories| ==> Categories[i] != Categories[j]
    ensures |Units["Length"]| == 8 && |Units["Weight"]| == 5 && |Units["Temperature"]| == 3
    ensures |Units["Volume"]| == 6 && |Units["Area"]| == 6 && |Units["Time"]| == 7
    ensures |Units["Digital Storage"]| == 5
  {
    CategoriesAreKeys();
    UnitCounts();
  }

  lemma CategoriesAreKeys()
    ensures forall c :: c in Categories <==> c in Units
    ensures forall i, j :: 0 <= i < j < |Categories| ==> Categories[i] != Categories[j]
  {
  }

  lemma UnitCounts()
    ensures |Units["Length"]| == 8 && |Units["Weight"]| == 5 && |Units["Temperature"]| == 3
    ensures |Units["Volume"]| == 6 && |Units["Area"]| == 6 && |Units["Time"]| == 7
    ensures |Units["Digital Storage"]| == 5
  {
  }

  /** A unit is listed under a category exactly when the converter has a
      factor or a formula for it there: every listed unit can be converted,
      and nothing convertible is missing from the lists. */
  lemma CatalogueMatchesRules(category: string, unit: string)
    ensures (category in Units && unit in Units[category]) <==> HasRule(category, unit)
  {
    match category
    case "Length" => LengthListed();
    case "Weight" => WeightListed();
    case "Temperature" =>
    case "Volume" => VolumeListed();
    case "Area" => AreaListed();
    case "Time" => TimeListed();
    case "Digital Storage" => StorageListed();
    case _ =>
  }

  /** A conversion of a number succeeds exactly when the category is in the
      catalogue and both units are listed under it. */
  lemma SucceedsExactlyOnCatalogue(v: real, category: string, from: string, to: string)
    ensures Convert(Some(v), category, from, to).Ok?
        <==> category in Units && from in Units[category] && to in Units[category]
  {
    CatalogueMatchesRules(category, from);
    CatalogueMatchesRules(category, to);
  }

  /** A unit not listed under a catalogue category is reported by name, the
      source unit before the target unit. */
  lemma UnknownUnitReported(v: real, category: string, from: string, to: string)
    requires category in Units
    ensures from !in Units[category] ==> Convert(Some(v), category, from, to) == Err(UnknownUnit(from))
    ensures from in Units[category] && to !in Units[category] ==>
              Convert(Some(v), category, from, to) == Err(UnknownUnit(to))
  {
    CatalogueMatchesRules(category, from);
    CatalogueMatchesRules(category, to);
  }

  /** Every linear category has exactly one reference unit, with factor 1, and
      lists it first. */
  lemma ReferenceUnitFirst(category: string)
    requires category in Units && category != "Temperature"
    ensures ReferenceFirst(Units[category], FamilyOf(category).value.factors)
  {
    match category
    case "Length" => LengthListed();
    case "Weight" => WeightListed();
    case "Volume" => VolumeListed();
    case "Area" => AreaListed();
    case "Time" => TimeListed();
    case "Digital Storage" => StorageListed();
  }

  // ---------------------------------------------------------------------------
  // The linear rule, for any positive factor table

  lemma LinearIdentity(f: map<string, real>, u: string, v: real)
    requires PositiveFactors(f) && u in f
    ensures ConvertLinear(f, v, u, u) == Ok(v)
  {
  }

  lemma LinearRoundTrip(f: map<string, real>, a: string, b: string, v: real)
    requires PositiveFactors(f) && a in f && b in f
    ensures ConvertLinear(f, ConvertLinear(f, v, a, b).value, b, a) == Ok(v)
  {
    var w := ConvertLinear(f, v, a, b).value;
    var back := ConvertLinear(f, w, b, a).value;
    assert w * f[b] == v * f[a];
    assert back * f[a] == w * f[b];
    assert back * f[a] == v * f[a];
    assert back == v by {
      assert (back - v) * f[a] == 0.0;
    }
  }

  lemma LinearTransitive(f: map<string, real>, a: string, b: string, d: string, v: real)
    requires PositiveFactors(f) && a in f && b in f && d in f
    ensures ConvertLinear(f, ConvertLinear(f, v, a, b).value, b, d) == ConvertLinear(f, v, a, d)
  {
    var w := ConvertLinear(f, v, a, b).value;
    var x := ConvertLinear(f, w, b, d).value;
    var y := ConvertLinear(f, v, a, d).value;
    assert x * f[d] == y * f[d];
    assert x == y by {
      assert (x - y) * f[d] == 0.0;
    }
  }

  lemma LinearIncreasing(f: map<string, real>, a: string, b: string, v1: real, v2: real)
    requires PositiveFactors(f) && a in f && b in f && v1 < v2
    ensures ConvertLinear(f, v1, a, b).value < ConvertLinear(f, v2, a, b).value
  {
    var r1 := ConvertLinear(f, v1, a, b).value;
    var r2 := ConvertLinear(f, v2, a, b).value;
    assert (r2 - r1) * f[b] == (v2 - v1) * f[a];
    assert (v2 - v1) * f[a] > 0.0;
  }

  // ---------------------------------------------------------------------------
  // The temperature rule

  lemma TemperatureIncreasing(s: TempScale, t: TempScale, v1: real, v2: real)
    requires v1 < v2
    ensures FromCelsius(t, ToCelsius(s, v1)) < FromCelsius(t, ToCelsius(s, v2))
  {
  }

  // ---------------------------------------------------------------------------
  // The engine, for catalogue-valid requests

  /** In a linear category the result is the value times the source unit's
      factor divided by the target unit's factor. */
  lemma LinearFormula(v: real, category: string, from: string, to: string)
    requires category in Units && category != "Temperature"
    requires from in Units[category] && to in Units[category]
    ensures var f := FamilyOf(category).value.factors;
      from in f && to in f && f[to] > 0.0 &&
      Convert(Some(v), category, from, to) == Ok(v * f[from] / f[to])
  {
    CatalogueMatchesRules(category, from);
    CatalogueMatchesRules(category, to);
    LinearFactorsPositive(category);
    var f := FamilyOf(category).value.factors;
    assert Convert(Some(v), category, from, to) == ConvertLinear(f, v, from, to);
  }

  /** In Temperature the result is the value read into Celsius and written
      onto the target scale. */
  lemma TemperatureFormula(v: real, from: string, to: string)
    requires from in Units["Temperature"] && to in Units["Temperature"]
    ensures Convert(Some(v), "Temperature", from, to)
         == Ok(FromCelsius(TempScaleOf(to).value, ToCelsius(TempScaleOf(from).value, v)))
  {
  }

  /** Converting a value to its own unit gives it back unchanged. */
  lemma Identity(v: real, category: string, u: string)
    requires category in Units && u in Units[category]
    ensures Convert(Some(v), category, u, u) == Ok(v)
  {
    CatalogueMatchesRules(category, u);
    if category == "Temperature" {
      ScalePivotInverse(TempScaleOf(u).value, v);
    } else {
      LinearFactorsPositive(category);
      LinearIdentity(FamilyOf(category).value.factors, u, v);
    }
  }

  /** Converting from A to B and the result back from B to A gives the
      original value exactly. */
  lemma RoundTrip(v: real, category: string, a: string, b: string)
    requires category in Units && a in Units[category] && b in Units[category]
    ensures Convert(Some(v), category, a, b).Ok?
    ensures Convert(Some(Convert(Some(v), category, a, b).value), category, b, a) == Ok(v)
  {
    CatalogueMatchesRules(category, a);
    CatalogueMatchesRules(category, b);
    if category == "Temperature" {
      var s, t := TempScaleOf(a).value, TempScaleOf(b).value;
      CelsiusPivotInverse(t, ToCelsius(s, v));
      ScalePivotInverse(s, v);
    } else {
      LinearFactorsPositive(category);
      LinearRoundTrip(FamilyOf(category).value.factors, a, b, v);
    }
  }

  /** Converting from A to B and then from B to C is converting from A to C. */
  lemma Transitive(v: real, category: string, a: string, b: string, c: string)
    requires category in Units
    requires a in Units[category] && b in Units[category] && c in Units[category]
    ensures Convert(Some(v), category, a, b).Ok?
    ensures Convert(Some(Convert(Some(v), category, a, b).value), category, b, c)
         == Convert(Some(v), category, a, c)
  {
    CatalogueMatchesRules(category, a);
    CatalogueMatchesRules(category, b);
    CatalogueMatchesRules(category, c);
    if category == "Temperature" {
      var s, t := TempScaleOf(a).value, TempScaleOf(b).value;
      CelsiusPivotInverse(t, ToCelsius(s, v));
    } else {
      LinearFactorsPositive(category);
      LinearTransitive(FamilyOf(category).value.factors, a, b, c, v);
    }
  }

  /** Every conversion is strictly increasing in the value. */
  lemma StrictlyIncreasing(v1: real, v2: real, category: string, from: string, to: string)
    requires category in Units && from in Units[category] && to in Units[category]
    requires v1 < v2
    ensures Convert(Some(v1), category, from, to).Ok? && Convert(Some(v2), category, from, to).Ok?
    ensures Convert(Some(v1), category, from, to).value < Convert(Some(v2), category, from, to).value
  {
    CatalogueMatchesRules(category, from);
    CatalogueMatchesRules(category, to);
    if category == "Temperature" {
      TemperatureIncreasing(TempScaleOf(from).value, TempScaleOf(to).value, v1, v2);
    } else {
      LinearFactorsPositive(category);
      LinearIncreasing(FamilyOf(category).value.factors, from, to, v1, v2);
    }
  }

  // ---------------------------------------------------------------------------
  // Errors

  /** A value that did not parse is reported whatever the other arguments. */
  lemma InvalidValueFirst(category: string, from: string, to: string)
    ensures Convert(None, category, from, to) == Err(InvalidValue)
  {
  }

  /** A category outside the catalogue is not supported, whatever the units. */
  lemma UnsupportedCategory(v: real, category: string, from: string, to: string)
    requires category !in Units
    ensures Convert(Some(v), category, from, to) == Err(Unsupported)
  {
  }

  // ---------------------------------------------------------------------------
  // Known values

  lemma TemperatureFixedPoints()
    ensures Convert(Some(0.0), "Temperature", "Celsius (°C)", "Fahrenheit (°F)") == Ok(32.0)
    ensures Convert(Some(100.0), "Temperature", "Celsius (°C)", "Fahrenheit (°F)") == Ok(212.0)
    ensures Convert(Some(0.0), "Temperature", "Celsius (°C)", "Kelvin (K)") == Ok(273.15)
  {
  }

  lemma LengthFixedPoints()
    ensures Convert(Some(1.0), "Length", "Kilometer (km)", "Meter (m)") == Ok(1000.0)
    ensures Convert(Some(1.0), "Length", "Mile (mi)", "Kilometer (km)") == Ok(1.60934)
  {
  }

  lemma StorageFixedPoint()
    ensures Convert(Some(1.0), "Digital Storage", "Gigabyte (GB)", "Megabyte (MB)") == Ok(1024.0)
  {
  }

  /** Time uses nominal lengths: a day of 86400 seconds, a week of 7 days, a
      month of 30 days and a year of 365 days. */
  lemma NominalTime()
    ensures Convert(Some(1.0), "Time", "Day (day)", "Second (s)") == Ok(86400.0)
    ensures Convert(Some(1.0), "Time", "Week (week)", "Day (day)") == Ok(7.0)
    ensures Convert(Some(1.0), "Time", "Month (month)", "Day (day)") == Ok(30.0)
    ensures Convert(Some(1.0), "Time", "Year (year)", "Day (day)") == Ok(365.0)
  {
  }

  /** `b` raised to the power `n`. */
  function Pow(b: real, n: nat): real {
    if n == 0 then 1.0 else b * Pow(b, n - 1)
  }

  /** The i-th storage unit in the list is 1024^i bytes: binary prefixes. */
  lemma {:induction false} StorageUnitIsPowerOf1024(i: nat)
    requires i < |Units["Digital Storage"]|
    ensures StorageFactors[Units["Digital Storage"][i]] == Pow(1024.0, i)
  {
    match i
    case 0 => case 1 => case 2 => case 3 => case 4 =>
  }

  /** Each storage unit in the list is 1024 of the one before it. */
  lemma StorageStepsOf1024(i: nat)
    requires i + 1 < |Units["Digital Storage"]|
    ensures Convert(Some(1.0), "Digital Storage", Units["Digital Storage"][i + 1], Units["Digital Storage"][i])
         == Ok(1024.0)
  {
  }
}
