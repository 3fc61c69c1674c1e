/** The conversion engine: given a parsed value, a category and two unit
    names, either the converted value or the reason there is none. Linear
    categories go through the category's reference unit; temperatures go
    through Celsius. */
module UnitConversion {
  import opened UnitCatalogue

  datatype Error =
    | InvalidValue            // the value did not parse as a number
    | UnknownUnit(unit: string) // a unit with no factor or formula in the category
    | Unsupported             // a category the engine does not handle

  datatype Conversion = Ok(value: real) | Err(error: Error)

  /** Scale `v` from unit `from` to unit `to` through the reference unit of
      the factor table `f`. The amount in reference units is what is kept. */
  function ConvertLinear(f: map<string, real>, v: real, from: string, to: string): (r: Conversion)
    requires PositiveFactors(f)
    ensures r.Ok? <==> from in f && to in f
    ensures from !in f ==> r == Err(UnknownUnit(from))
    ensures from in f && to !in f ==> r == Err(UnknownUnit(to))
    ensures r.Ok? ==> r.value * f[to] == v * f[from]
  {
    if from !in f then Err(UnknownUnit(from))
    else if to !in f then Err(UnknownUnit(to))
    else
      var base := v * f[from];
      Ok(base / f[to])
  }

  /** The readings of a scale at the freezing and boiling points of water. */
  function Freezing(s: TempScale): real {
    match s
    case Celsius => 0.0
    case Fahrenheit => 32.0
    case Kelvin => 273.15
  }

  function Boiling(s: TempScale): real {
    match s
    case Celsius => 100.0
    case Fahrenheit => 212.0
    case Kelvin => 373.15
  }

  /** The temperature in Celsius of a reading `v` on scale `s`: how far `v`
      lies from freezing towards boiling, in hundredths of that interval. */
  function ToCelsius(s: TempScale, v: real): (c: real)
    ensures c * (Boiling(s) - Freezing(s)) == (v - Freezing(s)) * 100.0
  {
    match s
    case Celsius => v
    case Fahrenheit => (v - 32.0) * 5.0 / 9.0
    case Kelvin => v - 273.15
  }

  /** The reading on scale `s` of the temperature `c` in Celsius: freezing,
      plus `c` hundredths of the freezing-to-boiling interval. */
  function FromCelsius(s: TempScale, c: real): (v: real)
    ensures v * 100.0 == Freezing(s) * 100.0 + c * (Boiling(s) - Freezing(s))
  {
    match s
    case Celsius => c
    case Fahrenheit => c * 9.0 / 5.0 + 32.0
    case Kelvin => c + 273.15
  }

  /** Reading a scale back into Celsius undoes writing a Celsius temperature on it. */
  lemma CelsiusPivotInverse(s: TempScale, c: real)
    ensures ToCelsius(s, FromCelsius(s, c)) == c
  {
  }

  /** Writing a temperature on a scale undoes reading it from that scale. */
  lemma ScalePivotInverse(s: TempScale, v: real)
    ensures FromCelsius(s, ToCelsius(s, v)) == v
  {
  }

  /** Convert `v` between temperature units through Celsius. The temperature
      itself, measured in Celsius, is what is kept. */
  function ConvertTemperature(v: real, from: string, to: string): (r: Conversion)
    ensures r.Ok? <==> TempScaleOf(from).Some? && TempScaleOf(to).Some?
    ensures TempScaleOf(from).None? ==> r == Err(UnknownUnit(from))
    ensures TempScaleOf(from).Some? && TempScaleOf(to).None? ==> r == Err(UnknownUnit(to))
    ensures r.Ok? ==> ToCelsius(TempScaleOf(to).value, r.value) == ToCelsius(TempScaleOf(from).value, v)
  {
    match TempScaleOf(from)
    case None => Err(UnknownUnit(from))
    case Some(s) =>
      var c := ToCelsius(s, v);
      match TempScaleOf(to)
      case None => Err(UnknownUnit(to))
      case Some(t) =>
        CelsiusPivotInverse(t, c);
        Ok(FromCelsius(t, c))
  }

  /** The whole engine. `value` is the outcome of parsing the user's input:
      None when it is not a number. */
  function Convert(value: Option<real>, category: string, from: string, to: string): (r: Conversion)
    ensures value.None? ==> r == Err(InvalidValue)
    ensures value.Some? && category !in Units ==> r == Err(Unsupported)
    ensures r.Ok? ==> value.Some? && category in Units
  {
    match value
    case None => Err(InvalidValue)
    case Some(v) =>
      match FamilyOf(category)
      case None => Err(Unsupported)
      case Some(Affine) => ConvertTemperature(v, from, to)
      case Some(Linear(f)) =>
        LinearFactorsPositive(category);
        ConvertLinear(f, v, from, to)
  }
}
