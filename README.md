# Cider SDK core in Dafny

A Dafny model of the core of the `com.ciderref.sdk` cider-making library, with proofs about it. The library converts between physical quantities and works out how much sugar to add to a juice. Each Java source file is one Dafny module, in one `.dfy` file named after it:

- **Unit conversion.**
  - `ConversionFactorFunction` is a numerator/denominator multiplier with an inverse.
  - `CelsiusToFahrenheitFunction` is the affine temperature map.
  - `Function` is the sum of these two and the identity.
  - `TableOfConversionFunctions` is a class whose `functionMap` field (a map of maps) is filled in place. `MassConversionFunctions` and `VolumeConversionFunctions` are methods that build such a table with their 16 and 9 `put` calls.
  - `UnitsOfMassConversionFunctions` is a class holding its own nested map.
  - `TemperatureUnits` holds the enum conversion logic and `convert`.
- **Quantity values.** `Temperature`, `Mass`, `Volume`, `MassConcentration`, `Density`, `SpecificGravity`, `DegreesBrix`, `Brix` and `PercentAlcoholByVolume`.
  - Each is a datatype that holds the canonical unit, restricted by a subset type to what its constructor accepts.
  - The validating constructor returns a `Result`. Its error keeps `IllegalArgument` and `IllegalPropertyValue` (the library's `IllegalPropertyValueException`) apart.
  - `compareTo` works on the same rounded integer as the source ("comparable value", `Math.round` written as the integer within half a unit, ties up). Equality follows from it.
  - A nullable argument becomes an `Option` wherever the source throws on null.
- **Empirical models.**
  - `Water`'s piecewise density polynomial.
  - The two Brix/specific-gravity cubics of `BrixCalculator` and `SugarWater`.
  - The sugar band of `SugarConcentrationProfile` and `GenericAppleJuice`.
  - The 0.06 potential-alcohol factor of `PotentialAlcoholCalculator` and `PotentialAlcoholByVolume`.
  - The `Sweetness` interval filter: a method with the source's loop, proved against a filter function.
- **Chaptalization.**
  - `getChaptalizationResult` is a function, proved to conserve sugar, solids and mass.
  - `getAmountOfSugarToAdd` is a method. Its while loop narrows the bracket [naive, 1.5 × naive] until the width is at most 0.01. The loop is proved equal to a recursive specification, `Bisect`, whose contract states the bracketing, the bounds, the stopping width and how errors propagate.
  - Each trial amendment runs the forward simulation, so the search is written over a trial function (`real -> Result<real>`) and instantiated with the calculator's own. This lets every error a trial raises propagate.

Java `double` is Dafny `real`. Where a constructor checks for NaN or infinity, its argument is a `Double` datatype: `Finite(real)`, `NaN`, `PositiveInfinity` or `NegativeInfinity`. `Double.compare` on these is modelled by `Numerics.CompareDouble`.

Three constants are referenced by the sources but not defined in them. Each is defined here as the library's other code implies:
- `Volume.ONE_LITER` is 1000 mL.
- `MassConcentration.getValueInGramsPerLiter()` is `getValue(Grams, Liters)`.
- `Water.DENSITY_AT_20_DEGREES_CELSIUS` is water's density at 20 °C from the same polynomial, 998.216 g/L.

## Model

| member | source | states |
|---|---|---|
| Numerics.Compare | src/main/java/com/ciderref/sdk/property/Temperature.java:93-95 | `Long.compare`: negative, zero or positive exactly when the first integer is below, equal to or above the second |
| Numerics.CompareReals | src/main/java/com/ciderref/sdk/property/SpecificGravity.java:120-122 | `Double.compare` on finite values: the sign of the result is the order of the two reals |
| Numerics.CompareDouble | src/main/java/com/ciderref/sdk/property/Mass.java:54 | `Double.compare(value, 0)` on any double: the real order for finite values, below everything for negative infinity, above everything for positive infinity and NaN |
| Numerics.Round | src/main/java/com/ciderref/sdk/property/Temperature.java:150-152 | `Math.round(x)` is the integer within half a unit of `x` (ties rounding up) |
| Numerics.RoundOrder | src/main/java/com/ciderref/sdk/property/Temperature.java:150-152 | rounding keeps order: a smaller rounded value means a smaller input, and inputs at least 1 apart round apart |
| ConversionFactorFunction.FromFactor | src/main/java/com/ciderref/sdk/math/ConversionFactorFunction.java:39-42 | the single-factor constructor stores the factor as numerator over 1 |
| ConversionFactorFunction.FromRatio | src/main/java/com/ciderref/sdk/math/ConversionFactorFunction.java:51-57 | the ratio constructor fails with an illegal argument exactly when the denominator is zero, and otherwise stores both parts |
| ConversionFactorFunction.ApplyTo | src/main/java/com/ciderref/sdk/math/ConversionFactorFunction.java:65-67 | definition only: numerator × value / denominator, the denominator kept nonzero by the type; `ApplyFactor`, `InverseUndoesApply` and `InverseOfZeroFactor` state what it computes |
| ConversionFactorFunction.GetInverse | src/main/java/com/ciderref/sdk/math/ConversionFactorFunction.java:74-80 | a zero numerator inverts to the factor-0 function; any other function inverts by swapping numerator and denominator |
| ConversionFactorFunction.Equals | src/main/java/com/ciderref/sdk/math/ConversionFactorFunction.java:88-98 | two functions are equal exactly when numerator and denominator are each equal |
| ConversionFactorFunction.InverseUndoesApply | src/main/java/com/ciderref/sdk/math/ConversionFactorFunction.java:65-80 | for a nonzero numerator, applying the inverse after the function gives back the input |
| ConversionFactorFunction.InverseOfInverse | src/main/java/com/ciderref/sdk/math/ConversionFactorFunction.java:74-80 | for a nonzero numerator, the inverse of the inverse is the original function |
| ConversionFactorFunction.ApplyFactor | src/main/java/com/ciderref/sdk/math/ConversionFactorFunction.java:39-67 | a single-factor function multiplies by its factor, so it maps 0 to 0 |
| ConversionFactorFunction.InverseOfZeroFactor | src/main/java/com/ciderref/sdk/math/ConversionFactorFunction.java:75-76 | a zero-numerator function and its inverse both map every input to 0: the inverse does not undo it |
| ConversionFactorFunction.EqualsIsNotExtensional | src/main/java/com/ciderref/sdk/math/ConversionFactorFunction.java:65-97 | 2/4 and 1/2 compute the same values yet are not equal |
| CelsiusToFahrenheitFunction.ApplyTo | src/main/java/com/ciderref/sdk/property/units/CelsiusToFahrenheitFunction.java:41-62 | both directions fix −40, and Celsius-to-Fahrenheit gives 32 exactly for 0 °C |
| CelsiusToFahrenheitFunction.GetInverse | src/main/java/com/ciderref/sdk/property/units/CelsiusToFahrenheitFunction.java:51-72 | no temperature map is its own inverse: each direction inverts to the other |
| CelsiusToFahrenheitFunction.CelsiusToFahrenheitValues | src/main/java/com/ciderref/sdk/property/units/CelsiusToFahrenheitFunction.java:41-62 | the map sends 0 °C to 32 °F and 100 °C to 212 °F, its inverse sends 212 °F to 100 °C, and the map is increasing |
| CelsiusToFahrenheitFunction.InverseUndoesApply | src/main/java/com/ciderref/sdk/property/units/CelsiusToFahrenheitFunction.java:41-62 | each direction undoes the other: (c·9/5 + 32 − 32)·5/9 = c, and back |
| CelsiusToFahrenheitFunction.InverseOfInverse | src/main/java/com/ciderref/sdk/property/units/CelsiusToFahrenheitFunction.java:51-72 | the inverse of the inverse is the original function |
| Function.ApplyTo | src/main/java/com/ciderref/sdk/math/ConversionFactorFunction.java:65-67 | definition only: the identity returns its input, a factor function or a temperature map applies its own `applyTo`; `ApplyScaling` and `InverseUndoesApply` state what it computes |
| Function.GetInverse | src/main/java/com/ciderref/sdk/math/ConversionFactorFunction.java:74-80 | the inverse is a function of the same kind: the identity inverts to itself, a factor to a factor, a temperature map to the other direction |
| Function.ApplyScaling | src/main/java/com/ciderref/sdk/math/ConversionFactorFunction.java:65-67 | the identity and every conversion factor multiply their input by a fixed multiplier |
| Function.InverseUndoesApply | src/main/java/com/ciderref/sdk/math/ConversionFactorFunction.java:65-80 | every invertible function (identity, nonzero factor, temperature map) is undone by its inverse |
| Function.InverseOfInverse | src/main/java/com/ciderref/sdk/math/ConversionFactorFunction.java:74-80 | inverting an invertible function twice gives it back |
| Function.ScalingsCompose | src/main/java/com/ciderref/sdk/math/ConversionFactorFunction.java:65-67 | two scalings whose multipliers are ratios a/b and b/c compose to the scaling by a/c |
| TableOfConversionFunctions.TableOfConversionFunctions.constructor | src/main/java/com/ciderref/sdk/property/units/TableOfConversionFunctions.java:40-45 | the loop creates exactly one empty row per unit given |
| TableOfConversionFunctions.TableOfConversionFunctions.Put | src/main/java/com/ciderref/sdk/property/units/TableOfConversionFunctions.java:55-60 | a null unit fails with an illegal argument and changes nothing; otherwise the table becomes the old one with the (from, to) entry of that row set to `f`, which `GetFunction` then returns |
| TableOfConversionFunctions.UpdateChangesOneEntry | src/main/java/com/ciderref/sdk/property/units/TableOfConversionFunctions.java:55-60 | the update `put` makes keeps the same rows, sets the (from, to) entry to `f` and leaves every other entry as it was |
| TableOfConversionFunctions.TableOfConversionFunctions.GetFunction | src/main/java/com/ciderref/sdk/property/units/TableOfConversionFunctions.java:71-76 | a null unit fails with an illegal argument; a pair never put gives null |
| MassConversionFunctions.MassConversion | src/main/java/com/ciderref/sdk/property/units/MassConversionFunctions.java:59-77 | the function put under (from, to) is the identity exactly on the diagonal, and never a temperature map; `ConvertsByGrams` states the factor of each |
| MassConversionFunctions.NewMassConversionFunctions | src/main/java/com/ciderref/sdk/property/units/MassConversionFunctions.java:56-78 | the constructor fills all 16 pairs, each with the mass conversion between the two units |
| MassConversionFunctions.PutKilogramsRow | src/main/java/com/ciderref/sdk/property/units/MassConversionFunctions.java:59-62 | the four kilogram-row puts set exactly that row |
| MassConversionFunctions.PutGramsRow | src/main/java/com/ciderref/sdk/property/units/MassConversionFunctions.java:64-67 | the four gram-row puts set exactly that row |
| MassConversionFunctions.PutPoundsRow | src/main/java/com/ciderref/sdk/property/units/MassConversionFunctions.java:69-72 | the four pound-row puts set exactly that row |
| MassConversionFunctions.PutOuncesRow | src/main/java/com/ciderref/sdk/property/units/MassConversionFunctions.java:74-77 | the four ounce-row puts set exactly that row |
| MassConversionFunctions.RowsAreMassConversions | src/main/java/com/ciderref/sdk/property/units/MassConversionFunctions.java:48-77 | the 16 functions put, written as factors and inverses of factors, are the conversions by grams per unit |
| MassConversionFunctions.DiagonalIsIdentity | src/main/java/com/ciderref/sdk/property/units/MassConversionFunctions.java:59-77 | every diagonal entry is the identity |
| MassConversionFunctions.FactorsAreConsistent | src/main/java/com/ciderref/sdk/property/units/MassConversionFunctions.java:39-44 | the exact factors agree: grams per pound = 1000 × kilograms per pound = 16 × grams per ounce, and likewise for ounces |
| MassConversionFunctions.PoundsAndOunces | src/main/java/com/ciderref/sdk/property/units/MassConversionFunctions.java:72-76 | pounds to ounces multiplies by 16 and ounces to pounds undoes it |
| MassConversionFunctions.PathConsistent | src/main/java/com/ciderref/sdk/property/units/MassConversionFunctions.java:39-77 | converting a→b→c gives the same value as converting a→c directly, for all 64 paths |
| MassConversionFunctions.EntriesAreMutualInverses | src/main/java/com/ciderref/sdk/property/units/MassConversionFunctions.java:59-77 | the (a, b) and (b, a) entries undo each other |
| MassConversionFunctions.GramsIn | src/main/java/com/ciderref/sdk/property/units/MassConversionFunctions.java:41-43 | every unit holds a positive number of grams |
| MassConversionFunctions.ConversionScalesByGrams | src/main/java/com/ciderref/sdk/property/units/MassConversionFunctions.java:48-77 | each entry is a scaling whose multiplier is grams-in-from over grams-in-to |
| MassConversionFunctions.ConvertsByGrams | src/main/java/com/ciderref/sdk/property/units/MassConversionFunctions.java:48-77 | each entry maps x to (grams in from / grams in to)·x |
| VolumeConversionFunctions.VolumeConversion | src/main/java/com/ciderref/sdk/property/units/VolumeConversionFunctions.java:53-63 | the function put under (from, to) is the identity exactly on the diagonal, and never a temperature map |
| VolumeConversionFunctions.NewVolumeConversionFunctions | src/main/java/com/ciderref/sdk/property/units/VolumeConversionFunctions.java:50-64 | the constructor fills all 9 pairs, each with the volume conversion between the two units |
| VolumeConversionFunctions.PutLitersRow | src/main/java/com/ciderref/sdk/property/units/VolumeConversionFunctions.java:53-55 | the three liter-row puts set exactly that row |
| VolumeConversionFunctions.PutMillilitersRow | src/main/java/com/ciderref/sdk/property/units/VolumeConversionFunctions.java:57-59 | the three milliliter-row puts set exactly that row |
| VolumeConversionFunctions.PutUSGallonsRow | src/main/java/com/ciderref/sdk/property/units/VolumeConversionFunctions.java:61-63 | the three gallon-row puts set exactly that row |
| VolumeConversionFunctions.RowsAreVolumeConversions | src/main/java/com/ciderref/sdk/property/units/VolumeConversionFunctions.java:45-63 | the 9 functions put are the conversions by milliliters per unit |
| VolumeConversionFunctions.DiagonalIsIdentity | src/main/java/com/ciderref/sdk/property/units/VolumeConversionFunctions.java:53-63 | every diagonal entry is the identity |
| VolumeConversionFunctions.FactorsAreConsistent | src/main/java/com/ciderref/sdk/property/units/VolumeConversionFunctions.java:39-41 | milliliters per gallon = 1000 × liters per gallon |
| VolumeConversionFunctions.GallonsAndMilliliters | src/main/java/com/ciderref/sdk/property/units/VolumeConversionFunctions.java:41-62 | gallons to milliliters multiplies by 3785.411784 and milliliters to gallons undoes it |
| VolumeConversionFunctions.PathConsistent | src/main/java/com/ciderref/sdk/property/units/VolumeConversionFunctions.java:39-63 | converting a→b→c equals converting a→c, e.g. gallon→liter→milliliter equals gallon→milliliter |
| VolumeConversionFunctions.EntriesAreMutualInverses | src/main/java/com/ciderref/sdk/property/units/VolumeConversionFunctions.java:53-63 | the (a, b) and (b, a) entries undo each other |
| VolumeConversionFunctions.MillilitersIn | src/main/java/com/ciderref/sdk/property/units/VolumeConversionFunctions.java:39-41 | every unit holds a positive number of milliliters |
| VolumeConversionFunctions.ConversionScalesByMilliliters | src/main/java/com/ciderref/sdk/property/units/VolumeConversionFunctions.java:45-63 | each entry is a scaling whose multiplier is milliliters-in-from over milliliters-in-to |
| VolumeConversionFunctions.ConvertsByMilliliters | src/main/java/com/ciderref/sdk/property/units/VolumeConversionFunctions.java:45-63 | each entry maps x to (mL in from / mL in to)·x |
| UnitsOfMassConversionFunctions.UnitsOfMassConversionFunctions.constructor | src/main/java/com/ciderref/sdk/property/units/UnitsOfMassConversionFunctions.java:61-86 | the rows and 16 entries built hold, for every pair, the mass conversion |
| UnitsOfMassConversionFunctions.UnitsOfMassConversionFunctions.GetFunction | src/main/java/com/ciderref/sdk/property/units/UnitsOfMassConversionFunctions.java:97-102 | a null unit fails with an illegal argument; otherwise the result is the conversion between the two units, never null |
| UnitsOfMassConversionFunctions.RowsHoldMassConversions | src/main/java/com/ciderref/sdk/property/units/UnitsOfMassConversionFunctions.java:67-85 | the 16 functions put are the conversions by grams per unit (diagonal identity, ounces→grams ×28.349523125, grams→ounces its inverse) |
| UnitsOfMassConversionFunctions.AgreesWithMassConversionFunctions | src/main/java/com/ciderref/sdk/property/units/UnitsOfMassConversionFunctions.java:97-102 | this table and the inherited mass table give the same function for every pair |
| TemperatureUnits.FromReferenceUnits | src/main/java/com/ciderref/sdk/property/TemperatureUnits.java:40-77 | the value in `units` of a Celsius value; converting it back to Celsius gives the value again |
| TemperatureUnits.ToReferenceUnits | src/main/java/com/ciderref/sdk/property/TemperatureUnits.java:40-77 | the Celsius value of a value in `units`: 32 ℉ is exactly freezing, 212 ℉ exactly boiling, and −40 stays −40 |
| TemperatureUnits.Convert | src/main/java/com/ciderref/sdk/property/TemperatureUnits.java:116-119 | converting to the same units returns the value unchanged; otherwise the result and the input denote the same Celsius temperature |
| TemperatureUnits.ReferenceRoundTrip | src/main/java/com/ciderref/sdk/property/TemperatureUnits.java:40-77 | each unit's to-reference and from-reference logic undo each other (Celsius is the identity both ways) |
| TemperatureUnits.ConvertRoundTrip | src/main/java/com/ciderref/sdk/property/TemperatureUnits.java:64-119 | converting C→F→C (or any a→b→a) returns the original value |
| TemperatureUnits.ConvertIsIncreasing | src/main/java/com/ciderref/sdk/property/TemperatureUnits.java:64-119 | conversion keeps the order of temperatures |
| TemperatureUnits.FixedPoints | src/main/java/com/ciderref/sdk/property/TemperatureUnits.java:64-119 | 0 °C is 32 °F, 100 °C is 212 °F, −40 °F is −40 °C |
| TemperatureUnits.AgreesWithConversionFunctions | src/main/java/com/ciderref/sdk/property/TemperatureUnits.java:64-77 | the enum logic and the Celsius-to-Fahrenheit function compute the same values |
| Temperature.New | src/main/java/com/ciderref/sdk/property/Temperature.java:45-61 | null units, NaN and infinity fail with an illegal argument; otherwise reading the temperature back in the given units returns the input |
| Temperature.GetValue | src/main/java/com/ciderref/sdk/property/Temperature.java:71-79 | null units fail with an illegal argument; otherwise the stored Celsius value converted to the units |
| Temperature.ComparableValue | src/main/java/com/ciderref/sdk/property/Temperature.java:150-152 | the comparison key is the temperature in hundredths of a degree, to within half a hundredth |
| Temperature.CompareTo | src/main/java/com/ciderref/sdk/property/Temperature.java:93-152 | a nonzero result orders the two temperatures; temperatures a hundredth of a degree or more apart never compare equal |
| Temperature.IsWarmerThan | src/main/java/com/ciderref/sdk/property/Temperature.java:105-107 | warmer only when actually warmer, and always warmer when at least a hundredth of a degree above (`compareTo > 0` at hundredth resolution) |
| Temperature.IsCoolerThan | src/main/java/com/ciderref/sdk/property/Temperature.java:117-119 | cooler only when actually cooler, and always cooler when at least a hundredth of a degree below (`compareTo < 0` at hundredth resolution) |
| Temperature.Equals | src/main/java/com/ciderref/sdk/property/Temperature.java:135-137 | equal temperatures are within a hundredth of a degree, and every temperature equals itself |
| Temperature.CompareToAntisymmetric | src/main/java/com/ciderref/sdk/property/Temperature.java:93-95 | `compareTo` is antisymmetric |
| Temperature.CompareToTransitive | src/main/java/com/ciderref/sdk/property/Temperature.java:93-95 | `compareTo` is transitive for "less" and for "equal" |
| Temperature.WarmerIsConverseOfCooler | src/main/java/com/ciderref/sdk/property/Temperature.java:105-119 | t is warmer than u exactly when u is cooler than t |
| Temperature.EqualAcrossUnits | src/main/java/com/ciderref/sdk/property/Temperature.java:56-137 | 0 °C equals 32 °F, and 50 °C does not equal 50 °F |
| Temperature.EqualWithinAHundredth | src/main/java/com/ciderref/sdk/property/Temperature.java:150-152 | 20 °C equals 20.004 °C but not 20.006 °C |
| Mass.GramsPer | src/main/java/com/ciderref/sdk/property/Mass.java:61-74 | every unit holds a positive number of grams |
| Mass.New | src/main/java/com/ciderref/sdk/property/Mass.java:47-75 | null units, NaN, a negative value and infinity fail with an illegal argument (zero is accepted); otherwise reading the mass back in the same units returns the input |
| Mass.GetValue | src/main/java/com/ciderref/sdk/property/Mass.java:85-99 | null units fail with an illegal argument; otherwise a non-negative value |
| Mass.ComparableValue | src/main/java/com/ciderref/sdk/property/Mass.java:144-146 | the comparison key is the mass in hundredths of a gram, to within half a hundredth |
| Mass.CompareTo | src/main/java/com/ciderref/sdk/property/Mass.java:111-146 | a nonzero result orders the masses; masses a hundredth of a gram or more apart never compare equal |
| Mass.Equals | src/main/java/com/ciderref/sdk/property/Mass.java:129-131 | equal masses are within a hundredth of a gram, and every mass equals itself |
| Mass.GetValueAgreesWithTable | src/main/java/com/ciderref/sdk/property/Mass.java:85-99 | `getValue` converts from grams exactly as the mass conversion table does |
| Mass.NewAgreesWithTable | src/main/java/com/ciderref/sdk/property/Mass.java:61-74 | the constructor converts to grams exactly as the mass conversion table does |
| Mass.ConvertsLikeTable | src/main/java/com/ciderref/sdk/property/Mass.java:61-99 | constructing in one unit and reading in another is the table's conversion |
| Mass.CompareToIsAnOrder | src/main/java/com/ciderref/sdk/property/Mass.java:111-113 | `compareTo` is antisymmetric and transitive |
| Mass.PoundInOtherUnits | src/main/java/com/ciderref/sdk/property/Mass.java:66-131 | 1 lb equals 16 oz and is 453.59237 g; 1 kg equals 1000 g |
| Volume.MillilitersPer | src/main/java/com/ciderref/sdk/property/Volume.java:86-93 | every unit holds a positive number of milliliters |
| Volume.New | src/main/java/com/ciderref/sdk/property/Volume.java:47-72 | null units, NaN, a negative value and infinity fail with an illegal argument; in liters and milliliters the value reads back unchanged |
| Volume.NewCorrected | src/main/java/com/ciderref/sdk/property/Volume.java:47-72 | the same checks, and the value reads back unchanged in every unit, gallons included |
| Volume.GetValue | src/main/java/com/ciderref/sdk/property/Volume.java:82-94 | null units fail with an illegal argument; otherwise a non-negative value |
| Volume.ComparableValue | src/main/java/com/ciderref/sdk/property/Volume.java:139-141 | the comparison key is the volume in microliters, to within half a microliter |
| Volume.CompareTo | src/main/java/com/ciderref/sdk/property/Volume.java:106-141 | a nonzero result orders the volumes; volumes a microliter or more apart never compare equal |
| Volume.Equals | src/main/java/com/ciderref/sdk/property/Volume.java:124-126 | equal volumes are within a microliter, and every volume equals itself |
| Volume.EqualsZero | src/main/java/com/ciderref/sdk/property/Volume.java:124-141 | a volume equals zero volume exactly when it is below half a microliter |
| Volume.GallonRoundTripFailsAsWritten | src/main/java/com/ciderref/sdk/property/Volume.java:66-90 | 5 US gallons constructed and read back in gallons is not 5 |
| Volume.CorrectionOnlyAffectsGallons | src/main/java/com/ciderref/sdk/property/Volume.java:61-71 | the corrected constructor agrees with the written one for liters and milliliters |
| Volume.GetValueAgreesWithTable | src/main/java/com/ciderref/sdk/property/Volume.java:82-94 | `getValue` converts from milliliters exactly as the volume conversion table does |
| Volume.NewAgreesWithTable | src/main/java/com/ciderref/sdk/property/Volume.java:61-71 | the corrected constructor converts to milliliters as the volume table does |
| Volume.ConvertsLikeTable | src/main/java/com/ciderref/sdk/property/Volume.java:61-94 | constructing in one unit and reading in another is the table's conversion |
| Volume.CompareToIsAnOrder | src/main/java/com/ciderref/sdk/property/Volume.java:106-108 | `compareTo` is antisymmetric and transitive |
| Volume.EqualAcrossUnits | src/main/java/com/ciderref/sdk/property/Volume.java:61-141 | 1 L equals 1000 mL, and 0 L equals 0 US gallons |
| Volume.NearbyVolumesMayDiffer | src/main/java/com/ciderref/sdk/property/Volume.java:139-141 | 0.0004 mL and 0.0006 mL round to different microliters, so they are not equal |
| MassConcentration.New | src/main/java/com/ciderref/sdk/property/MassConcentration.java:47-57 | a null mass or volume, or a volume equal to zero volume (below half a microliter), fails with an illegal argument; otherwise both are kept |
| MassConcentration.PerLiter | src/main/java/com/ciderref/sdk/calculate/PotentialAlcoholCalculator.java:57 | a mass of `grams` grams over `Volume.ONE_LITER` exists exactly when `grams` is non-negative and has that many grams per liter |
| MassConcentration.GetValue | src/main/java/com/ciderref/sdk/property/MassConcentration.java:70-76 | null units fail with an illegal argument; otherwise value × volume in the volume units = mass in the mass units |
| MassConcentration.GramsPerLiter | src/main/java/com/ciderref/sdk/property/MassConcentration.java:124 | grams per liter is 1000 × grams / milliliters |
| MassConcentration.ComparableValue | src/main/java/com/ciderref/sdk/property/MassConcentration.java:123-125 | the comparison key is the grams per liter in hundredths, to within half a hundredth |
| MassConcentration.CompareTo | src/main/java/com/ciderref/sdk/property/MassConcentration.java:90-125 | a nonzero result orders grams per liter; concentrations 0.01 g/L or more apart never compare equal |
| MassConcentration.Equals | src/main/java/com/ciderref/sdk/property/MassConcentration.java:108-110 | equal concentrations are within 0.01 g/L, and every concentration equals itself |
| MassConcentration.CompareToIsAnOrder | src/main/java/com/ciderref/sdk/property/MassConcentration.java:90-92 | `compareTo` is antisymmetric and transitive |
| MassConcentration.EqualsIgnoresSplit | src/main/java/com/ciderref/sdk/property/MassConcentration.java:108-125 | two concentrations with the same grams per liter are equal, however mass and volume make them up |
| MassConcentration.FourGramsInTwoLiters | src/main/java/com/ciderref/sdk/property/MassConcentration.java:108-125 | 4 g in 2 L equals 2 g in 1 L |
| MassConcentration.EqualAcrossUnits | src/main/java/com/ciderref/sdk/property/MassConcentration.java:108-125 | 1 kg in 1 L equals 1000 g in 1000 mL, at 1000 g/L |
| Density.New | src/main/java/com/ciderref/sdk/property/Density.java:46-55 | a null mass or volume, or a zero (rounded) volume, fails with an illegal argument; otherwise both are kept |
| Density.GetValue | src/main/java/com/ciderref/sdk/property/Density.java:68-74 | null units fail with an illegal argument; otherwise value × volume = mass in the requested units |
| Density.GramsPerLiter | src/main/java/com/ciderref/sdk/property/Density.java:87-88 | grams per liter is 1000 × grams / milliliters |
| Density.CompareTo | src/main/java/com/ciderref/sdk/property/Density.java:86-94 | 0 exactly when the densities differ by at most 0.01 g/L, otherwise the sign of the difference |
| Density.Equals | src/main/java/com/ciderref/sdk/property/Density.java:110-112 | equal exactly when within 0.01 g/L |
| Density.CompareToReflexiveAndAntisymmetric | src/main/java/com/ciderref/sdk/property/Density.java:86-94 | `compareTo` is 0 against itself and antisymmetric |
| Density.CompareToStrictlyTransitive | src/main/java/com/ciderref/sdk/property/Density.java:86-94 | "less" is transitive |
| Density.EqualsIsNotTransitive | src/main/java/com/ciderref/sdk/property/Density.java:89-112 | the tolerance makes equality non-transitive: 1.0, 1.008 and 1.016 g/L |
| SpecificGravity.CheckValidity | src/main/java/com/ciderref/sdk/property/SpecificGravity.java:91-98 | passes exactly on [0.990, 1.100], otherwise an illegal property value |
| SpecificGravity.New | src/main/java/com/ciderref/sdk/property/SpecificGravity.java:55-58 | accepts exactly [0.990, 1.100] and stores the argument unchanged; otherwise an illegal property value |
| SpecificGravity.NewCorrected | src/main/java/com/ciderref/sdk/property/SpecificGravity.java:74-89 | checks the measured value first, then water's densities at the calibration and measured temperatures (null: illegal argument), and re-checks the corrected value; the result × density at the measured temperature = measured × density at calibration |
| SpecificGravity.CompareTo | src/main/java/com/ciderref/sdk/property/SpecificGravity.java:120-122 | raw comparison, no rounding: 0 exactly for the same value, negative exactly when smaller |
| SpecificGravity.Equals | src/main/java/com/ciderref/sdk/property/SpecificGravity.java:138-140 | equal exactly for the same value |
| SpecificGravity.RangeEndpoints | src/main/java/com/ciderref/sdk/property/SpecificGravity.java:39-97 | 0.990 and 1.100 are accepted; 0.98999 and 1.10001 are refused |
| SpecificGravity.SameTemperatureLeavesReadingUnchanged | src/main/java/com/ciderref/sdk/property/SpecificGravity.java:80-86 | equal measured and calibration temperatures leave the reading unchanged |
| SpecificGravity.TemperatureOutsideLiquidRangeFails | src/main/java/com/ciderref/sdk/property/SpecificGravity.java:80-84 | a temperature at which water is not liquid gives an illegal property value |
| SpecificGravity.WarmerReadingIsRaised | src/main/java/com/ciderref/sdk/property/SpecificGravity.java:85-86 | a reading taken where water is less dense than at calibration is corrected upward |
| DegreesBrix.New | src/main/java/com/ciderref/sdk/property/DegreesBrix.java:42-54 | NaN, infinity and negative values fail with an illegal argument, with no upper bound; `getValue` returns the argument |
| DegreesBrix.ComparableBrix | src/main/java/com/ciderref/sdk/property/DegreesBrix.java:53 | the comparison key is the value in hundred-thousandths of a degree, to within half a unit |
| DegreesBrix.CompareTo | src/main/java/com/ciderref/sdk/property/DegreesBrix.java:53-80 | a nonzero result orders the values; values 0.00001 or more apart never compare equal |
| DegreesBrix.Equals | src/main/java/com/ciderref/sdk/property/DegreesBrix.java:96-98 | equal values are within 0.00001, and every value equals itself |
| DegreesBrix.CompareToIsAnOrder | src/main/java/com/ciderref/sdk/property/DegreesBrix.java:78-80 | `compareTo` is antisymmetric and transitive |
| DegreesBrix.Resolution | src/main/java/com/ciderref/sdk/property/DegreesBrix.java:53 | 8 < 8.00001 but 8 equals 8.0000049; 1000 °Bx is accepted |
| Brix.New | src/main/java/com/ciderref/sdk/property/Brix.java:42-55 | NaN, values below 0 or above 25 (infinities included) fail with an illegal argument; `getValue` returns the argument |
| Brix.ComparableBrix | src/main/java/com/ciderref/sdk/property/Brix.java:54 | the comparison key is the value in hundred-thousandths of a degree, to within half a unit |
| Brix.CompareTo | src/main/java/com/ciderref/sdk/property/Brix.java:54-81 | a nonzero result orders the values; values 0.00001 or more apart never compare equal |
| Brix.Equals | src/main/java/com/ciderref/sdk/property/Brix.java:97-99 | equal values are within 0.00001, and every value equals itself |
| Brix.CompareToIsAnOrder | src/main/java/com/ciderref/sdk/property/Brix.java:79-81 | `compareTo` is antisymmetric and transitive |
| Brix.RangeEndpoints | src/main/java/com/ciderref/sdk/property/Brix.java:46-52 | 0 and 25 are accepted; both infinities are refused by the range checks |
| PercentAlcoholByVolume.New | src/main/java/com/ciderref/sdk/property/PercentAlcoholByVolume.java:44-53 | NaN is an illegal argument; infinity, below 0 or above 100 is an illegal property value; otherwise `getValue` returns the argument |
| PercentAlcoholByVolume.ComparableValue | src/main/java/com/ciderref/sdk/property/PercentAlcoholByVolume.java:52 | the comparison key is the value in hundredths of a percent, to within half a hundredth |
| PercentAlcoholByVolume.CompareTo | src/main/java/com/ciderref/sdk/property/PercentAlcoholByVolume.java:52-78 | a nonzero result orders the values; values 0.01 or more apart never compare equal |
| PercentAlcoholByVolume.Equals | src/main/java/com/ciderref/sdk/property/PercentAlcoholByVolume.java:95-98 | equal values are within 0.01, and every value equals itself |
| PercentAlcoholByVolume.CompareToIsAnOrder | src/main/java/com/ciderref/sdk/property/PercentAlcoholByVolume.java:76-78 | `compareTo` is antisymmetric and transitive |
| PercentAlcoholByVolume.Resolution | src/main/java/com/ciderref/sdk/property/PercentAlcoholByVolume.java:48-52 | 2.525 % equals 2.53 %; 0 % and 100 % are accepted |
| Sweetness.DisplayName | src/main/java/com/ciderref/sdk/property/Sweetness.java:34-57 | definition only: the display name given in each constant's declaration; `DisplayNamesAreDistinct` states they differ |
| Sweetness.DisplayNamesAreDistinct | src/main/java/com/ciderref/sdk/property/Sweetness.java:34-57 | no two classifications share a display name |
| Sweetness.MinimumSpecificGravity | src/main/java/com/ciderref/sdk/property/Sweetness.java:34-66 | each band's minimum is below its maximum, and only Dry starts at the lowest supported gravity 0.990 |
| Sweetness.MaximumSpecificGravity | src/main/java/com/ciderref/sdk/property/Sweetness.java:34-75 | only Sweet reaches the highest supported gravity 1.100 |
| Sweetness.BandsAdjoin | src/main/java/com/ciderref/sdk/property/Sweetness.java:34-38 | each band after Dry starts exactly where the one declared before it ends |
| Sweetness.DescribesIsBandMembership | src/main/java/com/ciderref/sdk/property/Sweetness.java:91-92 | a category describes a gravity exactly when min ≤ sg ≤ max |
| Sweetness.AllValuesOf | src/main/java/com/ciderref/sdk/property/Sweetness.java:85-97 | a null gravity fails with an illegal argument; otherwise the loop returns the matching categories in declaration order |
| Sweetness.MatchingMembership | src/main/java/com/ciderref/sdk/property/Sweetness.java:90-95 | a category is in the result exactly when it is listed and describes the gravity |
| Sweetness.MatchingKeepsOrder | src/main/java/com/ciderref/sdk/property/Sweetness.java:90-95 | filtering keeps declaration order and never lengthens the list |
| Sweetness.OrderedHasNoDuplicates | src/main/java/com/ciderref/sdk/property/Sweetness.java:34-38 | a list in declaration order has no duplicates |
| Sweetness.AllValuesOfShape | src/main/java/com/ciderref/sdk/property/Sweetness.java:89-96 | the result is in declaration order, has no duplicates, has at most 5 entries and holds exactly the categories whose band contains the gravity |
| Sweetness.EveryGravityIsClassified | src/main/java/com/ciderref/sdk/property/Sweetness.java:34-38 | the bands tile [0.990, 1.100], so every gravity matches at least one category |
| Sweetness.MatchingAllUnfolded | src/main/java/com/ciderref/sdk/property/Sweetness.java:90-95 | the result is the five categories' band tests concatenated in order |
| Sweetness.SharedBoundaries | src/main/java/com/ciderref/sdk/property/Sweetness.java:34-38 | 1.004, 1.009, 1.015 and 1.020 each match exactly the two neighbouring categories |
| Sweetness.InteriorsAreExclusive | src/main/java/com/ciderref/sdk/property/Sweetness.java:34-38 | 1.000, 1.006, 1.012, 1.018 and 1.050 each match only their own category |
| SugarConcentrationProfile.New | src/main/java/com/ciderref/sdk/property/SugarConcentrationProfile.java:47-59 | NaN, infinite or negative coefficient or deviation fail with an illegal argument; zero is accepted; both are kept |
| SugarConcentrationProfile.SugarConcentration | src/main/java/com/ciderref/sdk/property/SugarConcentrationProfile.java:69-109 | a null gravity is an illegal argument; otherwise it succeeds exactly when coefficient·(sg − 1) ≥ 0 (a negative mass is an illegal argument), holding that many g/L |
| SugarConcentrationProfile.GetAverageSugarConcentration | src/main/java/com/ciderref/sdk/property/SugarConcentrationProfile.java:68-73 | a null gravity is an illegal argument; otherwise it succeeds exactly at gravity ≥ 1 or a zero coefficient, holding coefficient·(sg − 1) g/L |
| SugarConcentrationProfile.GetMinimumSugarConcentration | src/main/java/com/ciderref/sdk/property/SugarConcentrationProfile.java:83-88 | a null gravity is an illegal argument, every failure is one, and a result holds (coefficient − 2·deviation)·(sg − 1) g/L |
| SugarConcentrationProfile.GetMaximumSugarConcentration | src/main/java/com/ciderref/sdk/property/SugarConcentrationProfile.java:98-103 | a null gravity is an illegal argument; otherwise it succeeds exactly at gravity ≥ 1 or when coefficient + 2·deviation is 0, holding (coefficient + 2·deviation)·(sg − 1) g/L |
| SugarConcentrationProfile.Equals | src/main/java/com/ciderref/sdk/property/SugarConcentrationProfile.java:125-136 | equal exactly when both fields are equal |
| SugarConcentrationProfile.MinimumAverageMaximumOrdered | src/main/java/com/ciderref/sdk/property/SugarConcentrationProfile.java:54-101 | at gravity ≥ 1, when the minimum exists all three exist and minimum ≤ average ≤ maximum |
| SugarConcentrationProfile.MoreSugarPerDegree | src/main/java/com/ciderref/sdk/property/SugarConcentrationProfile.java:72-102 | at gravity ≥ 1 a larger coefficient never gives less sugar |
| SugarConcentrationProfile.GravityBelowOneFails | src/main/java/com/ciderref/sdk/property/SugarConcentrationProfile.java:72-102 | below gravity 1 a positive coefficient gives a negative mass, an illegal argument |
| SugarConcentrationProfile.WideDeviationHasNoMinimum | src/main/java/com/ciderref/sdk/property/SugarConcentrationProfile.java:86-87 | when 2·deviation exceeds the coefficient the minimum fails with an illegal argument |
| Water.BaseDensity | src/main/java/com/ciderref/sdk/substance/Water.java:69-74 | definition only: the quartic regression in degrees Celsius; `DensityBounds` bounds it over the liquid range |
| Water.CorrectionAbove50 | src/main/java/com/ciderref/sdk/substance/Water.java:75-83 | definition only: the quartic correction in degrees above 50 ℃, subtracted there |
| Water.CorrectionAbove70 | src/main/java/com/ciderref/sdk/substance/Water.java:85-91 | the correction above 70 ℃ is at least 0.0463 g/L, so it only ever adds |
| Water.DensityAt | src/main/java/com/ciderref/sdk/substance/Water.java:65-92 | definition only: the base regression, less the correction above 50 ℃, plus the one above 70 ℃; `GetDensity` and `DensityBounds` state its range |
| Water.IsLiquidRange | src/main/java/com/ciderref/sdk/substance/Water.java:60 | water is liquid exactly from −0.005 °C up to (not including) 100.005 °C, the hundredth-degree rounding of 0 °C and 100 °C |
| Water.GetDensity | src/main/java/com/ciderref/sdk/substance/Water.java:56-93 | a null temperature is an illegal argument; outside the liquid range an illegal property value; otherwise the piecewise polynomial, which stays between 850 and 1050 g/L |
| Water.DensityBounds | src/main/java/com/ciderref/sdk/substance/Water.java:69-91 | over the liquid range the polynomial stays between 850 and 1050 g/L |
| Water.DensityAt20 | src/main/java/com/ciderref/sdk/substance/Water.java:69-73 | the constant 998.216 g/L is the regression's value at 20 °C, and lies within 0.05 of 998.2 |
| SugarWater.ClampedBrix | src/main/java/com/ciderref/sdk/substance/SugarWater.java:47-54 | the Brix cubic when non-negative, exactly 0 when it is negative |
| SugarWater.GetBrix | src/main/java/com/ciderref/sdk/substance/SugarWater.java:42-56 | a null gravity is an illegal argument; otherwise always a Brix (no supported gravity regresses above 25), equal to the clamped cubic |
| SugarWater.AgreesWithBrixCalculator | src/main/java/com/ciderref/sdk/substance/SugarWater.java:47-54 | from the calculator's threshold on, and wherever the cubic is negative, sugar water and the Brix calculator agree |
| SugarWater.WaterHasNoSugar | src/main/java/com/ciderref/sdk/substance/SugarWater.java:49-54 | gravity 1 regresses below zero and is clamped to exactly 0 °Bx |
| AqueousSolution.New | src/main/java/com/ciderref/sdk/substance/AqueousSolution.java:51-62 | any null argument is an illegal argument; otherwise the accessors return the arguments |
| AqueousSolution.GetSugarFreeDryExtract | src/main/java/com/ciderref/sdk/substance/AqueousSolution.java:87-90 | defined exactly when sugar ≤ solids (else an illegal argument from `Mass`); extract + sugar = solids in g/L |
| AqueousSolution.ConstructorDoesNotCheckSugarAgainstSolids | src/main/java/com/ciderref/sdk/substance/AqueousSolution.java:51-88 | a solution with more sugar than solids can be built, and its extract then fails |
| GenericAppleJuice.GetSugarConcentrationProfile | src/main/java/com/ciderref/sdk/substance/GenericAppleJuice.java:48-50 | the profile is (2130, 120) |
| GenericAppleJuice.GetTotalSolidsConcentration | src/main/java/com/ciderref/sdk/substance/GenericAppleJuice.java:59-69 | a null gravity is an illegal argument; it fails (illegal argument) exactly when the Brix calculator does; otherwise sg × water density at 20 °C × Brix / 100 g/L |
| GenericAppleJuice.NoSolidsBelowThreshold | src/main/java/com/ciderref/sdk/substance/GenericAppleJuice.java:64-68 | below the Brix clamp threshold the solids are exactly 0 g/L |
| GenericAppleJuice.SolidsNearLinearFit | src/main/java/com/ciderref/sdk/substance/GenericAppleJuice.java:59-69 | at gravities 1.040, 1.050 and 1.060 the solids are within 1 g/L of 2608·(sg − 1) |
| BrixCalculator.SpecificGravityOf | src/main/java/com/ciderref/sdk/calculate/BrixCalculator.java:64-65 | definition only: 1 + (3.8687 b + 0.013048 b² + 0.0000487 b³)/1000; `GravityAtLeastOne`, `ZeroBrixIsWater` and `GravityIncreasesWithBrix` state its shape |
| BrixCalculator.BrixOf | src/main/java/com/ciderref/sdk/calculate/BrixCalculator.java:92-93 | definition only: the cubic in Horner form; `BrixDifference` and `SlopePositive` make it increasing over the supported gravities |
| BrixCalculator.GetSpecificGravity | src/main/java/com/ciderref/sdk/calculate/BrixCalculator.java:56-66 | null is an illegal argument; above 44 °Bx, or a regressed gravity above 1.100, an illegal property value; otherwise the NBS regression's gravity |
| BrixCalculator.GetDegreesBrix | src/main/java/com/ciderref/sdk/calculate/BrixCalculator.java:79-95 | null is an illegal argument; below the threshold exactly 0; otherwise the Horner cubic, which fails with an illegal argument where negative |
| BrixCalculator.GravityAtLeastOne | src/main/java/com/ciderref/sdk/calculate/BrixCalculator.java:64-65 | a non-negative Brix regresses to a gravity of at least 1 |
| BrixCalculator.ZeroBrixIsWater | src/main/java/com/ciderref/sdk/calculate/BrixCalculator.java:64-65 | 0 °Bx has a gravity of exactly 1 |
| BrixCalculator.GravityIncreasesWithBrix | src/main/java/com/ciderref/sdk/calculate/BrixCalculator.java:64-65 | the gravity regression is strictly increasing for Brix ≥ 0 |
| BrixCalculator.LargestBrix | src/main/java/com/ciderref/sdk/calculate/BrixCalculator.java:60-65 | 23 °Bx is accepted; 24 °Bx and 44 °Bx are illegal property values because their regressed gravity exceeds 1.100 |
| BrixCalculator.BrixIncreasesWithGravity | src/main/java/com/ciderref/sdk/calculate/BrixCalculator.java:92-93 | the Brix regression is non-decreasing over the supported gravities |
| BrixCalculator.BrixRange | src/main/java/com/ciderref/sdk/calculate/BrixCalculator.java:83-94 | the regression stays below 24 °Bx and is positive from 1.0001 on, so the 1.17875 check never fires |
| BrixCalculator.DegreesBrixIsMonotone | src/main/java/com/ciderref/sdk/calculate/BrixCalculator.java:79-95 | from 1.0001 on every gravity has a Brix and a heavier liquid never has less |
| BrixCalculator.ClampedBelowThreshold | src/main/java/com/ciderref/sdk/calculate/BrixCalculator.java:87-91 | below the regression threshold 1.0000185477666315 the result is exactly 0 °Bx |
| PotentialAlcoholCalculator.GetPotentialAlcohol | src/main/java/com/ciderref/sdk/calculate/PotentialAlcoholCalculator.java:45-47 | ABV = 0.06 × sugar g/L; an illegal property value exactly when that exceeds 100 % |
| PotentialAlcoholCalculator.GetSugarConcentration | src/main/java/com/ciderref/sdk/calculate/PotentialAlcoholCalculator.java:56-58 | 0.06 × the sugar returned gives back the target ABV |
| PotentialAlcoholCalculator.SugarForAbvRoundTrip | src/main/java/com/ciderref/sdk/calculate/PotentialAlcoholCalculator.java:45-58 | the potential alcohol of the sugar needed for a target is that target |
| PotentialAlcoholCalculator.MoreSugarMoreAlcohol | src/main/java/com/ciderref/sdk/calculate/PotentialAlcoholCalculator.java:46 | ABV is non-decreasing in sugar and 0 g/L gives 0 % |
| PotentialAlcoholByVolume.New | src/main/java/com/ciderref/sdk/calculate/PotentialAlcoholByVolume.java:46-51 | a null juice is an illegal argument; otherwise it is kept |
| PotentialAlcoholByVolume.CalculateAbv | src/main/java/com/ciderref/sdk/calculate/PotentialAlcoholByVolume.java:99-101 | 0.06 × sugar g/L |
| PotentialAlcoholByVolume.AbvOf | src/main/java/com/ciderref/sdk/calculate/PotentialAlcoholByVolume.java:62-63 | an error from the profile propagates; otherwise the potential alcohol of the sugar |
| PotentialAlcoholByVolume.GetMinimum | src/main/java/com/ciderref/sdk/calculate/PotentialAlcoholByVolume.java:60-97 | a null gravity is an illegal argument; a result is 0.06 × (coefficient − 2·deviation) × (sg − 1) |
| PotentialAlcoholByVolume.GetAverage | src/main/java/com/ciderref/sdk/calculate/PotentialAlcoholByVolume.java:73-97 | a null gravity is an illegal argument; a result is 0.06 × coefficient × (sg − 1) |
| PotentialAlcoholByVolume.GetMaximum | src/main/java/com/ciderref/sdk/calculate/PotentialAlcoholByVolume.java:86-97 | a null gravity is an illegal argument; a result is 0.06 × (coefficient + 2·deviation) × (sg − 1) |
| PotentialAlcoholByVolume.MinimumAverageMaximumOrdered | src/main/java/com/ciderref/sdk/calculate/PotentialAlcoholByVolume.java:60-90 | at gravity ≥ 1, when minimum and maximum exist the average exists too and minimum ≤ average ≤ maximum |
| PotentialAlcoholByVolume.GenericJuiceAverage | src/main/java/com/ciderref/sdk/calculate/PotentialAlcoholByVolume.java:73-77 | the generic juice at 1.050 has an average potential of 6.39 % |
| ChaptalizationCalculator.TotalMassPerOriginalLiter | src/main/java/com/ciderref/sdk/calculate/ChaptalizationCalculator.java:149-150 | one original liter weighs more than the sugar added to it |
| ChaptalizationCalculator.FinalBrix | src/main/java/com/ciderref/sdk/calculate/ChaptalizationCalculator.java:146-152 | the amended Brix is never negative |
| ChaptalizationCalculator.FinalSpecificGravity | src/main/java/com/ciderref/sdk/calculate/ChaptalizationCalculator.java:150-154 | the final gravity is the Brix calculator's gravity of 100·solids/total mass, an illegal property value above 44 °Bx or 1.100 |
| ChaptalizationCalculator.Diluted | src/main/java/com/ciderref/sdk/calculate/ChaptalizationCalculator.java:157-162 | the per-final-liter concentration times the expansion ratio is the per-original-liter amount |
| ChaptalizationCalculator.Expanded | src/main/java/com/ciderref/sdk/calculate/ChaptalizationCalculator.java:163-165 | the final volume is the original volume times the expansion ratio |
| ChaptalizationCalculator.ExpansionRatio | src/main/java/com/ciderref/sdk/calculate/ChaptalizationCalculator.java:155-156 | the volume of one original liter after amendment is positive |
| ChaptalizationCalculator.DilutionKeepsAmount | src/main/java/com/ciderref/sdk/calculate/ChaptalizationCalculator.java:144-165 | diluting (before + added) by the ratio into the expanded volume keeps the batch amount: after = before + added |
| ChaptalizationCalculator.AmendingKeepsSugarAndSolids | src/main/java/com/ciderref/sdk/calculate/ChaptalizationCalculator.java:144-165 | the amended batch holds the original sugar and solids plus the sugar added |
| ChaptalizationCalculator.ExpansionKeepsMass | src/main/java/com/ciderref/sdk/calculate/ChaptalizationCalculator.java:150-165 | the amended batch's mass is the original mass plus the sugar added |
| ChaptalizationCalculator.GetChaptalizationResult | src/main/java/com/ciderref/sdk/calculate/ChaptalizationCalculator.java:143-168 | fails only with an illegal property value, exactly when the final gravity does; the result has that gravity |
| ChaptalizationCalculator.ChaptalizationConserves | src/main/java/com/ciderref/sdk/calculate/ChaptalizationCalculator.java:143-168 | mass balance: sugar, solids and total mass of the batch each grow by exactly the sugar added |
| ChaptalizationCalculator.AbvAfterAdding | src/main/java/com/ciderref/sdk/calculate/ChaptalizationCalculator.java:119-122 | a negative amount is an illegal argument (from `Mass`); otherwise failures are illegal property values and an ABV lies in [0, 100] |
| ChaptalizationCalculator.AbvAfterAddingPropertyErrorsOnly | src/main/java/com/ciderref/sdk/calculate/ChaptalizationCalculator.java:119-122 | for non-negative amounts a trial fails only with an illegal property value |
| ChaptalizationCalculator.Bisect | src/main/java/com/ciderref/sdk/calculate/ChaptalizationCalculator.java:118-128 | the final bracket has width ≤ 0.01, lies within the initial one, has width > 0.005 when the loop ran, its low end falls short of the target (or is the initial one), its high end reaches it (or is the initial one); trial errors propagate |
| ChaptalizationCalculator.NaiveDeficit | src/main/java/com/ciderref/sdk/calculate/ChaptalizationCalculator.java:91-105 | definition only: target sugar per liter less current sugar per liter; `NaiveDeficitPositive` states its sign |
| ChaptalizationCalculator.NaiveDeficitPositive | src/main/java/com/ciderref/sdk/calculate/ChaptalizationCalculator.java:91-107 | when the juice falls short of the target the naive deficit is positive |
| ChaptalizationCalculator.LitersOf | src/main/java/com/ciderref/sdk/calculate/ChaptalizationCalculator.java:131 | the batch volume in liters |
| ChaptalizationCalculator.ForWholeBatch | src/main/java/com/ciderref/sdk/calculate/ChaptalizationCalculator.java:131 | scaling a per-liter amount to the batch fails (illegal argument) exactly for a negative amount in a non-empty batch |
| ChaptalizationCalculator.ForWholeBatchGrams | src/main/java/com/ciderref/sdk/calculate/ChaptalizationCalculator.java:131 | the answer is the per-liter amount times the batch volume in liters |
| ChaptalizationCalculator.BisectedSugar | src/main/java/com/ciderref/sdk/calculate/ChaptalizationCalculator.java:105-131 | with a non-negative naive deficit and trials that fail only with illegal property values, the search fails only with an illegal property value |
| ChaptalizationCalculator.BisectedSugarOf | src/main/java/com/ciderref/sdk/calculate/ChaptalizationCalculator.java:118-131 | an error from the search propagates; otherwise the answer is the midpoint of the final bracket, searched from naive to 1.5 × naive, scaled to the batch |
| ChaptalizationCalculator.BisectedSugarWithinBracket | src/main/java/com/ciderref/sdk/calculate/ChaptalizationCalculator.java:106-131 | the answer lies between naive × liters and 1.5 × naive × liters |
| ChaptalizationCalculator.ForWholeBatchWithinBracket | src/main/java/com/ciderref/sdk/calculate/ChaptalizationCalculator.java:130-131 | a per-liter amount within the bracket scales to an amount within the scaled bracket |
| ChaptalizationCalculator.SugarToAdd | src/main/java/com/ciderref/sdk/calculate/ChaptalizationCalculator.java:69-131 | a gravity below 1.035 or a target above 15 % is an illegal property value, and every failure is one |
| ChaptalizationCalculator.EnoughAlreadyNeedsNone | src/main/java/com/ciderref/sdk/calculate/ChaptalizationCalculator.java:79-81 | a juice whose potential alcohol compares at or above the target (to a hundredth of a percent) needs exactly 0 g |
| ChaptalizationCalculator.SugarToAddBisects | src/main/java/com/ciderref/sdk/calculate/ChaptalizationCalculator.java:83-131 | when the juice's potential alcohol compares below the target, the naive deficit is positive and the answer is the bisected amount |
| ChaptalizationCalculator.PotentialAlcoholRefused | src/main/java/com/ciderref/sdk/calculate/ChaptalizationCalculator.java:79-81 | past the guards, a sugar concentration the alcohol calculator refuses fails with that calculator's error |
| ChaptalizationCalculator.ChaptalizationIgnoresVolume | src/main/java/com/ciderref/sdk/calculate/ChaptalizationCalculator.java:143-168 | two solutions differing only in volume are amended alike: both fail or both get the same sugar concentration |
| ChaptalizationCalculator.AbvAfterAddingIgnoresVolume | src/main/java/com/ciderref/sdk/calculate/ChaptalizationCalculator.java:119-122 | each trial of the search gives the same potential alcohol whatever the batch volume |
| ChaptalizationCalculator.BisectSameTrials | src/main/java/com/ciderref/sdk/calculate/ChaptalizationCalculator.java:118-128 | two trial functions that agree everywhere lead the search to the same bracket (or the same error) |
| ChaptalizationCalculator.ForWholeBatchScalesWithVolume | src/main/java/com/ciderref/sdk/calculate/ChaptalizationCalculator.java:130-131 | a positive amount per liter scales to two batches as amounts in the ratio of their volumes |
| ChaptalizationCalculator.BisectedSugarScalesWithVolume | src/main/java/com/ciderref/sdk/calculate/ChaptalizationCalculator.java:105-131 | from a positive deficit, with agreeing trials, two batches differing only in volume both fail or both succeed, with amounts in the ratio of their volumes |
| ChaptalizationCalculator.BisectionScalesWithVolume | src/main/java/com/ciderref/sdk/calculate/ChaptalizationCalculator.java:83-131 | `SugarToAddScalesWithVolume` for a solution short of its target |
| ChaptalizationCalculator.SugarToAddScalesWithVolume | src/main/java/com/ciderref/sdk/calculate/ChaptalizationCalculator.java:69-131 | the answer scales linearly with volume: two solutions differing only in volume both fail or both succeed, and grams × the other's liters agree |
| ChaptalizationCalculator.Narrow | src/main/java/com/ciderref/sdk/calculate/ChaptalizationCalculator.java:118-128 | the while loop computes exactly the bracket `Bisect` specifies |
| ChaptalizationCalculator.AmountByBisection | src/main/java/com/ciderref/sdk/calculate/ChaptalizationCalculator.java:118-131 | the loop and the final scaling compute exactly `BisectedSugar` |
| ChaptalizationCalculator.GetAmountOfSugarToAdd | src/main/java/com/ciderref/sdk/calculate/ChaptalizationCalculator.java:63-132 | a null argument is an illegal argument; otherwise the result is `SugarToAdd` |

Proof helpers: arithmetic and unfolding facts the lemmas above rely on. They model no behaviour of their own and are listed only for completeness.

- Units.MassUnitsComplete (src/main/java/com/ciderref/sdk/property/units/MassConversionFunctions.java:57): the four units of mass are all listed, each once, as `UnitsOfMass.values()` yields them
- Units.VolumeUnitsComplete (src/main/java/com/ciderref/sdk/property/units/VolumeConversionFunctions.java:51): the three units of volume are all listed, each once
- Function.RatiosChain (src/main/java/com/ciderref/sdk/math/ConversionFactorFunction.java:65-67): (b/c)·((a/b)·x) = (a/c)·x for positive b and c
- SpecificGravity.CorrectionAboveOne (src/main/java/com/ciderref/sdk/property/SpecificGravity.java:85-86): a correction factor above 1 raises the value
- SugarConcentrationProfile.LargerCoefficientScalesUp (src/main/java/com/ciderref/sdk/property/SugarConcentrationProfile.java:72,87,102): scaling a non-negative degree count by a larger coefficient keeps sign and order
- SugarConcentrationProfile.ProductSign (src/main/java/com/ciderref/sdk/property/SugarConcentrationProfile.java:72): the product is non-negative exactly when both factors have the same sign or one is zero
- SugarConcentrationProfile.ScaledInOrder (src/main/java/com/ciderref/sdk/property/SugarConcentrationProfile.java:72): multiplying by a non-negative factor keeps order
- Water.PowerBounds (src/main/java/com/ciderref/sdk/substance/Water.java:69-91): bounds on squares, cubes and fourth powers used by the density bounds
- GenericAppleJuice.NonNegativeSolids (src/main/java/com/ciderref/sdk/substance/GenericAppleJuice.java:66-68): the solids product of non-negative factors is non-negative
- BrixCalculator.TermsInOrder (src/main/java/com/ciderref/sdk/calculate/BrixCalculator.java:64-65): termwise-ordered powers give ordered gravities
- BrixCalculator.ScaledUp (src/main/java/com/ciderref/sdk/calculate/BrixCalculator.java:64-65): multiplying by a non-negative factor keeps order
- BrixCalculator.BrixDifference (src/main/java/com/ciderref/sdk/calculate/BrixCalculator.java:92-93): the difference of two Brix values factors as (b − a)·slope
- BrixCalculator.SlopePositive (src/main/java/com/ciderref/sdk/calculate/BrixCalculator.java:92-93): over the supported gravities the slope factor is positive
- BrixCalculator.ProductNonNegative (src/main/java/com/ciderref/sdk/calculate/BrixCalculator.java:92-93): a product of non-negative factors is non-negative
- BrixCalculator.ProductAtLeast (src/main/java/com/ciderref/sdk/calculate/BrixCalculator.java:92-93): a product of factors at least m is at least m²
- ChaptalizationCalculator.HalvingShrinks (src/main/java/com/ciderref/sdk/calculate/ChaptalizationCalculator.java:118-128): halving a width above 0.01 strictly lowers the loop's termination measure
- ChaptalizationCalculator.BisectStep (src/main/java/com/ciderref/sdk/calculate/ChaptalizationCalculator.java:118-128): one iteration: a trial below target moves the low bound to the mean, otherwise the high bound
- ChaptalizationCalculator.ScaleWithinBracket (src/main/java/com/ciderref/sdk/calculate/ChaptalizationCalculator.java:130-131): scaling by non-negative liters keeps the bracket
- ChaptalizationCalculator.CrossScaled (src/main/java/com/ciderref/sdk/calculate/ChaptalizationCalculator.java:130-131): the same amount per liter scaled to two volumes gives amounts in the ratio of the volumes
- Numerics.RoundMonotone (src/main/java/com/ciderref/sdk/property/Temperature.java:150-152): rounding never reverses the order of two reals
- Numerics.RoundSeparates (src/main/java/com/ciderref/sdk/property/Temperature.java:150-152): reals at least one apart round to different integers
- Numerics.RoundedLessThan (src/main/java/com/ciderref/sdk/property/Temperature.java:150-152): a smaller rounded value comes from a smaller real
- ChaptalizationCalculator.BisectedSugarOf (src/main/java/com/ciderref/sdk/calculate/ChaptalizationCalculator.java:118-131): unfolds the bisection result into either its error or the whole-batch amount at the bracket midpoint

## Left out

- IEEE-754 doubles are modelled as exact reals. NaN propagation, −0.0, overflow and round-off are not modelled.
- `SpecificGravity` takes a real, so NaN is not an input to it: its range check lets NaN through, and the model claims nothing about it.
- `Math.round` returns a `long` and saturates for huge arguments. `Numerics.Round` is unbounded, so the comparable values do not model that saturation.
- `hashCode`, `toString`, `DecimalFormat` output and exception messages are not modelled. They carry no logic beyond formatting.
- `NullPointerException` from `compareTo(null)` is not modelled; arguments that the source dereferences without checking are plain values.
- `AppleJuice` is an interface, modelled as the `AppleJuice` datatype (a profile plus a solids function), with the generic juice as its one instance.
- `ConversionFunctions` is not part of this model. It only holds static factories.
- `ConversionLogic` is folded into `TemperatureUnits`.
- `IllegalPropertyValueException` is the `IllegalPropertyValue` error variant. It is a subclass of `IllegalArgumentException` in Java; here the two are kept distinct, and every contract names which one it means.
- BrixCalculator.GetDegreesBrix: the `> 1.17875` guard is modelled, but no contract mentions it. It can never fire, because a `SpecificGravity` is at most 1.100.
- Volume.New: keeps the gallon factor as written, so its round trip is stated for liters and milliliters only. `Volume.NewCorrected` is the corrected constructor (see Findings). The rest of the model builds volumes only in liters, where the two agree (`Volume.CorrectionOnlyAffectsGallons`).
- ChaptalizationCalculator.AbvAfterAdding: a trial's alcohol is only bounded to [0, 100] %. The model does not prove how it changes with the amount added, so `Bisect` promises a bracket of the target, not that the target is reached.
- The bisection works on exact reals. The loop's double round-off is not modelled, and neither is the published answer (40 g ± 0.025 for the reference juice), which needs numeric evaluation of the loop.
- How well the regressions fit the published NBS and NIST tables is not stated. Those are claims about fit quality, not about the code's logic.
- The Brix cubic's sign exactly at the clamp threshold is not claimed: the clamp's threshold is a rounded double.
- Some table rows name a function with no `ensures` of its own: `ConversionFactorFunction.ApplyTo`, `Function.ApplyTo`, `Sweetness.DisplayName`, `Water.BaseDensity`, `Water.CorrectionAbove50`, `Water.DensityAt`, `BrixCalculator.SpecificGravityOf`, `BrixCalculator.BrixOf` and `ChaptalizationCalculator.NaiveDeficit`. Each is a plain formula; what the source promises about it is stated by the lemmas in the rows next to it.
- `Water.IsLiquid` is a predicate; its meaning is stated by `Water.IsLiquidRange`.
- Mocked collaborators in the `PotentialAlcoholByVolume` tests are not modelled. The model uses the generic juice and the `AppleJuice` datatype instead.

## Findings

| source | as written | input that shows it | evidently intended | confidence | as-written member | corrected member |
|---|---|---|---|---|---|---|
| src/main/java/com/ciderref/sdk/property/Volume.java:66 | the constructor multiplies US gallons by 3785.41178, while `getValue` (line 90) and the conversion table divide by 3785.411784 | `new Volume(5, USGallons).getValue(USGallons)` gives 4.99999... instead of 5 | the constructor uses 3785.411784, so every unit round-trips | not executed | Volume.GallonRoundTripFailsAsWritten | Volume.NewCorrected |
