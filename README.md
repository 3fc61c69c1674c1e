# Unit converter engine, modelled in Dafny

This project models the conversion engine of a small unit converter. The model covers two things:

- the unit catalogue: seven categories and the units listed under each;
- `convert_units`, which turns a value given in one unit into another unit of the same category.

Six categories are linear: Length, Weight, Volume, Area, Time and Digital Storage. There the value is multiplied by the source unit's factor, which gives the amount in the category's reference unit. That amount is then divided by the target unit's factor. Temperature is affine: the value is read into Celsius and then written onto the target scale.

The model is pure, like the engine. It has three modules:

- `UnitCatalogue` (`catalogue.dfy`) holds the catalogue exactly as listed, with the source's own unit strings. It also holds the six factor tables as `map<string, real>`, the category dispatch `FamilyOf` and the temperature scales.
- `UnitConversion` (`conversion.dfy`) holds the engine. `ConvertLinear` is one linear routine that takes a factor table as a parameter. `ToCelsius` and `FromCelsius` are the Celsius pivot. Their contracts compare each scale to Celsius through its readings at the freezing and boiling points of water (`Freezing`, `Boiling`). `Convert` is the whole dispatch.
- `ConversionProperties` (`properties.dfy`) holds what the engine guarantees: the catalogue and the rules agree, and conversions are exact, invertible, composable and strictly increasing. It also holds the fixed values that follow from the tables.

Every factor in the source is an exact decimal, so values are `real` and every property holds exactly.

The value comes in already parsed: `Some(v)` when `float(value)` succeeds, `None` when it raises. A bad unit makes the source raise an exception. In a linear category it is a `KeyError` on the factor lookup. In Temperature it is an unbound local variable. The model returns `Err(UnknownUnit(name))` instead. It names the source unit when that one is bad, and otherwise the target unit. This matches the linear categories, where the source unit's factor is looked up first. In Temperature with both units bad, the source fails on the unset result at app.py:118, which is the target side. The model still names the source unit there. In every case no number is produced.

There is no separate "unknown category" error. Any category the code does not handle falls through to "Conversion not supported", and the model gives `Err(Unsupported)` for it.

The proofs of the two catalogue lemmas `CatalogueMatchesRules` and `ReferenceUnitFirst` use one small helper lemma per linear category (`LengthListed` and the like). `LinearFactorsPositive` uses one per factor table (`LengthPositive` and the like). `CatalogueShape` uses `CategoriesAreKeys` and `UnitCounts`. Splitting them this way keeps each proof small.

## Model

| member | source | states |
|---|---|---|
| `UnitCatalogue.FamilyOf` | app.py:79-176 | The dispatch handles exactly the categories listed in the catalogue, and Temperature is the only one not converted by a factor table |
| `UnitCatalogue.LinearFactorsPositive` | app.py:81-170 | Every factor table the dispatch selects has only strictly positive factors, so dividing by the target factor is always defined |
| `UnitCatalogue.TempScaleOf` | app.py:103-116 | The three names with a temperature formula are exactly the units listed under Temperature |
| `UnitConversion.ConvertLinear` | app.py:86-87 | Succeeds exactly when both units are in the table, and then keeps the amount in reference units: result × factor(to) = value × factor(from); an unknown source unit is reported before an unknown target unit |
| `UnitConversion.ConvertTemperature` | app.py:101-118 | Succeeds exactly when both names are temperature scales, and then keeps the temperature: the result read back into Celsius equals the value read into Celsius; an unknown source unit is reported first |
| `UnitConversion.ToCelsius` | app.py:103-108 | Reading a value into Celsius places it as far from 0 °C, in hundredths of the freezing-to-boiling interval, as the value lies from the scale's freezing point (32 °F, 273.15 K) towards its boiling point (212 °F, 373.15 K) |
| `UnitConversion.FromCelsius` | app.py:111-116 | Writing a Celsius temperature onto a scale gives the scale's freezing point plus that many hundredths of its freezing-to-boiling interval |
| `UnitConversion.CelsiusPivotInverse` | app.py:103-116 | For each scale, writing a Celsius temperature onto the scale and reading it back gives the same temperature |
| `UnitConversion.ScalePivotInverse` | app.py:103-116 | For each scale, reading a value into Celsius and writing it back onto the scale gives the same value |
| `UnitConversion.Convert` | app.py:73-176 | An unparsed value gives the invalid-value error whatever the other arguments; a number with a category outside the catalogue gives "not supported"; a success needs a number and a catalogue category |
| `ConversionProperties.CatalogueShape` | app.py:60-70 | The ordered category list names each catalogue category exactly once, and the categories hold 8, 5, 3, 6, 6, 7 and 5 units |
| `ConversionProperties.CatalogueMatchesRules` | app.py:60-173 | A unit is listed under a category if and only if that category's branch has a factor or a formula for it |
| `ConversionProperties.SucceedsExactlyOnCatalogue` | app.py:73-176 | Converting a number succeeds if and only if the category is in the catalogue and both units are listed under it, so a caller that keeps to the catalogue never hits a failed lookup |
| `ConversionProperties.UnknownUnitReported` | app.py:86-87 | In a catalogue category, an unlisted source unit is reported by name, and otherwise an unlisted target unit |
| `ConversionProperties.ReferenceUnitFirst` | app.py:60-170 | Each linear category has exactly one unit whose factor is 1, its reference unit, and lists it first |
| `ConversionProperties.LinearIdentity` | app.py:86-87 | For any positive table, converting a unit to itself returns the value |
| `ConversionProperties.LinearRoundTrip` | app.py:86-87 | For any positive table, converting A to B and the result back to A returns the original value exactly |
| `ConversionProperties.LinearTransitive` | app.py:86-87 | For any positive table, converting A to B and then B to C equals converting A to C |
| `ConversionProperties.LinearIncreasing` | app.py:86-87 | For any positive table, a larger value converts to a strictly larger result |
| `ConversionProperties.TemperatureIncreasing` | app.py:103-116 | Going through Celsius between any two scales is strictly increasing |
| `ConversionProperties.LinearFormula` | app.py:80-174 | In every linear category, for listed units, the result is value × factor(from) / factor(to), with factor(to) > 0 |
| `ConversionProperties.TemperatureFormula` | app.py:101-118 | For listed temperature units, the result is the value read into Celsius from the source scale and written onto the target scale |
| `ConversionProperties.Identity` | app.py:80-174 | In every category, converting a listed unit to itself returns the value unchanged |
| `ConversionProperties.RoundTrip` | app.py:80-174 | In every category, converting A to B succeeds, and converting the result back to A returns the original value exactly |
| `ConversionProperties.Transitive` | app.py:80-174 | In every category, Temperature included, converting A to B and then B to C equals converting A to C |
| `ConversionProperties.StrictlyIncreasing` | app.py:80-174 | In every category, for listed units, a larger value converts to a strictly larger result |
| `ConversionProperties.InvalidValueFirst` | app.py:74-77 | A value that does not parse gives the invalid-value error and no number, whatever the category and units |
| `ConversionProperties.UnsupportedCategory` | app.py:176 | A category outside the catalogue gives "not supported", whatever the units |
| `ConversionProperties.TemperatureFixedPoints` | app.py:103-116 | 0 °C is 32 °F, 100 °C is 212 °F and 0 °C is 273.15 K |
| `ConversionProperties.LengthFixedPoints` | app.py:81-87 | 1 km is 1000 m and 1 mile is 1.60934 km |
| `ConversionProperties.StorageFixedPoint` | app.py:165-173 | 1 GB is 1024 MB |
| `ConversionProperties.NominalTime` | app.py:150-160 | A day is 86400 s, a week 7 days, a month 30 days and a year 365 days |
| `ConversionProperties.StorageUnitIsPowerOf1024` | app.py:165-171 | The i-th digital storage unit in the list is 1024^i bytes |
| `ConversionProperties.StorageStepsOf1024` | app.py:165-173 | Each digital storage unit in the list is worth 1024 of the unit before it |

## Left out

- Parsing: `float(value)` is not modelled. The value arrives as `Option<real>`, so text such as "nan" or "inf", which Python parses, has no counterpart.
- Floating point: arithmetic is exact over `real`. Binary float rounding of factors such as 0.01 or 273.15 is not modelled, so the exact results about identity, round trips, transitivity and strict increase hold for the model, not bit for bit for Python floats. For floats, adjacent values multiplied by 0.01 can give the same product, and rounding to six decimals maps 1e-9 and 2e-9 both to 0.0.
- Rounding to six decimals (`round(result, 6)`) and the Markdown text of the result are not modelled. The model returns the unrounded number, not the display string.
- Exceptions on a bad unit are modelled as the explicit error `UnknownUnit`, not as a raised `KeyError` or unbound-variable error. Either way no number is produced.
- The Streamlit page (`main`, styling, widgets, result rendering) is user interface and is not part of this model. It keeps the unit pickers to the selected category's list.
- The remote tip service described for the wider system is not in this code and is network I/O. It is not part of this model.
