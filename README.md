# wxdat in Dafny

This project models the core of wxdat, a Python service that polls weather providers and
records their observations in a database. It models three parts.

- **The unit layer.** A `Quantity` holds a magnitude that may be absent. Its subclasses
  convert between temperature, distance, pressure, velocity, precipitation-rate, volume and
  weight units by fixed linear formulas. The base class intercepts every attribute read on an
  absent magnitude. It also defines new-value and in-place arithmetic, a same-class-or-subclass
  operand check, comparisons and string forms. The package exports factory functions, and an
  older flat unit module differs from the package in a few places.
- **Provider normalisation.**
  - NOAA and Weather Underground choose the "feels like" temperature by thresholds.
  - OpenWeatherMap formats remarks and builds a station id from its coordinates.
  - Weather Underground takes the first observation.
  - Dark Sky scales percentages and converts pressure and precipitation units.
  - Each provider fills the current-conditions record field by field.
  - A base station builds its `User-Agent`, merges request headers, and counts requests and
    errors in `safer_get`.
- **Bookkeeping loops.**
  - The data recorder records one observation per tick and counts readings and failures. Its
    class-wide counter names its threads.
  - The observer keeps a list of watched stations and is meant to save each one per tick.
    As written it reads an attribute that no buildable station defines, so it saves nothing
    (see Findings).
  - Both loops compute a clamped sleep until the next tick.
  - The station base class has a freshness test.
  - The legacy monitor holds a shared station list and a per-station cache of metric gauges.

Magnitudes are `real`, so the code's conversion round trips are exact lemmas. Wall-clock
times are `real` seconds passed in as parameters. A loop that runs until a stop flag is set
is modelled over a given sequence of ticks. Each tick carries the flag as the loop finds it,
the clock readings, and what the station reports at that tick. HTTP, JSON parsing and the
conversion library that two providers call are parameters of the functions that use them.

## Model

| member | source | states |
|---|---|---|
| Temperature.OwnUnit | src/wxdat/units/temperature.py:27-78 | Celsius, Fahrenheit and Kelvin each read back their own stored magnitude |
| Temperature.ScalesAgree | src/wxdat/units/temperature.py:27-78 | in every class, degF = 1.8 degC + 32 and degK = degC + 273.15 |
| Temperature.RoundTrip | src/wxdat/units/temperature.py:27-78 | reading in unit w, rebuilding in w and reading in u gives back the start value (C->F->C, C->K->C, ...) |
| Temperature.FromCelsius | src/wxdat/units/temperature.py:42-78 | the magnitude it gives for a Celsius temperature reads back as that temperature in degC |
| Temperature.Freezing | tests/test_temperature.py:22-79 | 0 C, 32 F and 273.15 K report 0 / 32 / 273.15 in every class |
| Temperature.Boiling | tests/test_temperature.py:22-79 | 100 C, 212 F and 373.15 K report 100 / 212 / 373.15 in every class |
| Distance.OwnUnit | src/wxdat/units/distance.py:47-178 | every distance class reads back its own magnitude (Kilometer(x).kilometers == x, Mile(x).miles == x, ...) |
| Distance.RoundTripWithinFamily | src/wxdat/units/distance.py:44-178 | within the metric family and within the imperial family every conversion is undone exactly by the reverse one |
| Distance.MetricScales | src/wxdat/units/distance.py:47-84 | metric classes: km = m/1000, cm = 100 m, mm = 1000 m, and the fixed factors to miles, feet, inches and yards |
| Distance.ImperialScales | src/wxdat/units/distance.py:133-151 | imperial classes: inches = 12 ft, yards = ft/3, miles = ft/5280 |
| Distance.OneMile | tests/test_distance.py:74-76 | one mile is 5280 ft, 1760 yd and 63360 in; one foot is 12 in |
| Distance.OneMeter | tests/test_distance.py:19-21 | one meter is 0.001 km, 100 cm and 1000 mm; one millimeter is 0.001 m and 1e-6 km |
| Distance.FeetMetersAsWritten | src/wxdat/units/distance.py:114-116 | as written, one foot reports 1609.344 m and meters -> feet -> meters grows by more than 5000 times |
| Distance.CorrectedMeters | src/wxdat/units/distance.py:114-116 | with 0.3048 m per foot: metric classes unchanged; a foot, mile, yard and inch are 0.3048, 1609.344, 0.9144 and 0.0254 m |
| Distance.CorrectedMetersAgree | src/wxdat/units/distance.py:114-116 | corrected: a mile is 1609.344 m and a foot 30.48 cm; for every metric class u and imperial class w, u -> w -> meters and w -> meters -> w come back within 1e-5 relative |
| Pressure.Stored | src/wxdat/units/pressure.py:46-47 | Hectorpascal stores 1000 times its argument; every other class stores the argument |
| Pressure.OwnUnit | src/wxdat/units/pressure.py:27-66 | Pascal(x).Pa, Hectorpascal(x).hPa and InchesMercury(x).inHg are all x |
| Pressure.HectorpascalScales | src/wxdat/units/pressure.py:27-56 | Hectorpascal(x) reports x hPa and 1000 x Pa; in every class hPa is Pa / 1000 |
| Pressure.InHgToPaAsWritten | src/wxdat/units/pressure.py:59-61 | as written, 29.92 inHg reports under 0.01 Pa and Pa -> inHg -> Pa never returns a non-zero start value |
| Pressure.CorrectedPa | src/wxdat/units/pressure.py:59-61 | the corrected InchesMercury Pa divided by the factor is the stored inHg value |
| Pressure.CorrectedPaRoundTrip | src/wxdat/units/pressure.py:59-61 | corrected: Pa -> inHg -> Pa and inHg -> Pa -> inHg are exact, and 29.92 inHg is about 101.32 kPa |
| Pressure.HectopascalAsWritten | src/wxdat/units/pressure.py:27-47 | as written, one hectopascal is 1000 Pa and about 0.2953 inHg, and 1013.25 hPa reports over 299 inHg |
| Pressure.CorrectedStored | src/wxdat/units/pressure.py:46-47 | with 100 Pa per hectopascal, Hectorpascal stores 100 times its argument |
| Pressure.CorrectedHPa | src/wxdat/units/pressure.py:27-30 | the corrected hPa times 100 is the corrected Pa |
| Pressure.CorrectedHectopascal | src/wxdat/units/pressure.py:27-47 | corrected: Hectorpascal(x) reads back x hPa and 100 x Pa, one hPa is about 0.0295 inHg, and 1013.25 hPa is 29.92 inHg |
| Velocity.OwnUnit | src/wxdat/units/velocity.py:27-68 | MetersPerSecond and MilesPerHour read back their own magnitude |
| Velocity.MpsMphRoundTrip | src/wxdat/units/velocity.py:37-58 | m/s -> mph -> m/s and mph -> m/s -> mph are exact |
| Velocity.MpsKphAsWritten | src/wxdat/units/velocity.py:33-35 | as written, one m/s reports 1/3.6 km/h, and the two classes disagree on km/h for one speed by more than 12 times |
| Velocity.CorrectedKph | src/wxdat/units/velocity.py:33-35 | the corrected MetersPerSecond kph is 3.6 times m/s; MilesPerHour unchanged |
| Velocity.CorrectedKphAgrees | src/wxdat/units/velocity.py:33-63 | corrected: one m/s is 3.6 km/h, and both classes give the same km/h for one speed within 1e-4 relative |
| Rate.OwnUnit | src/wxdat/units/rate.py:15-50 | mm/h and cm/h read back their own magnitude exactly; in/h does within 1e-5 relative |
| Rate.OneMillimeterPerHour | tests/test_rate.py:17-18 | one mm/h is 0.1 cm/h and about 0.03937 in/h |
| Rate.ViaMillimeters | src/wxdat/units/rate.py:15-50 | reading any rate in mm/h and building MillimetersPerHour from it keeps cm/h and in/h |
| Volume.OwnUnit | src/wxdat/units/volume.py:15-101 | every volume class reads back its own magnitude (Pint(x).pint, Milliliter(x).ml, ...) |
| Volume.RoundTripWithinFamily | src/wxdat/units/volume.py:40-101 | within the Liter family and within the Gallon family every conversion is undone exactly |
| Volume.Examples | tests/test_volume.py:56-118 | one gallon is 8 pt, 4 qt and 128 oz; one pint is 0.5 qt and 16 oz; one fluid ounce is 0.0625 pt, 0.03125 qt and 0.0078125 gal |
| Volume.LiterGallonRoundTrip | src/wxdat/units/volume.py:49-69 | liter -> gallon -> liter comes back within 1e-5 relative |
| Weight.DerivedAccessors | src/wxdat/units/weight.py:15-37 | g, mg, oz and ton are absent exactly when the value is; g = 1000 kg and oz = 16 lbs |
| Weight.MgTonAsWritten | src/wxdat/units/weight.py:20-37 | as written, mg equals kg and one pound reports 2000 tons |
| Weight.CorrectedMilligrams | src/wxdat/units/weight.py:20-23 | corrected mg is absent exactly when the value is, otherwise one million times the class's kg |
| Weight.CorrectedTons | src/wxdat/units/weight.py:34-37 | corrected ton is absent exactly when the value is, otherwise lbs / 2000 |
| Weight.CorrectedExamples | src/wxdat/units/weight.py:20-37 | corrected: a kilogram is 1e6 mg, a pound 0.0005 ton and an ounce 0.00003125 ton |
| Quantities.Parent | src/wxdat/units/quantity.py:11-12 | every concrete class sits one level below its nearest concrete superclass or the base class |
| Quantities.AllAreQuantities | src/wxdat/units/quantity.py:134-137 | every quantity is an instance of the base class |
| Quantities.InstanceDepth | src/wxdat/units/quantity.py:134-137 | an instance of a class is at least as deep as that class, and equally deep only when it is that class |
| Quantities.InstanceOrder | src/wxdat/units/quantity.py:134-137 | the instance relation is transitive and antisymmetric |
| Quantities.InstanceKeepsKind | src/wxdat/units/quantity.py:134-137 | apart from the base class, an object is an instance only of classes of its own kind |
| Quantities.New | src/wxdat/units/quantity.py:14-15 | construction raises TypeError exactly for an abstract class or Hectorpascal(None); otherwise it keeps the class and the argument, with Hectorpascal storing 1000 times it |
| Quantities.GetAttr | src/wxdat/units/quantity.py:31-40 | an absent quantity gives None for every attribute; a present one gives the class's conversion, or AttributeError when the class lacks the attribute |
| Quantities.ConstructThenReadOwnUnit | src/wxdat/units/quantity.py:14-40 | every instantiable class built from x reads back x in its own unit |
| Quantities.ForeignAttributeRaises | src/wxdat/units/quantity.py:40 | reading another kind's attribute from a present quantity raises AttributeError |
| Quantities.Symbol | src/wxdat/units/quantity.py:146-149 | the symbol is None for every quantity |
| Quantities.OtherValue | src/wxdat/units/quantity.py:127-144 | the operand is accepted exactly when it is a scalar or an instance of the receiver's class, and then its value is returned; otherwise TypeError |
| Quantities.Apply | src/wxdat/units/quantity.py:50-64 | one arithmetic step; only division by zero raises (ZeroDivisionError), and the result undoes the operand |
| Quantities.Combine | src/wxdat/units/quantity.py:50-88 | an absent side or a refused operand raises TypeError; otherwise the result is the step on the two magnitudes |
| Quantities.Binary | src/wxdat/units/quantity.py:50-64 | a binary operator gives a base-class quantity holding the combined magnitude, or the combining error |
| Quantities.SubclassOperand | src/wxdat/units/quantity.py:134-142 | a Kelvin operand is accepted by a Celsius receiver but not the other way round |
| Quantities.OperandKinds | src/wxdat/units/quantity.py:134-142 | the base class accepts every quantity; a unit class refuses the base class and every other kind |
| Quantities.InverseOperations | src/wxdat/units/quantity.py:50-64 | adding then subtracting an accepted operand restores the magnitude, and so does multiplying then dividing by a non-zero one |
| Quantities.Quantity.Create | src/wxdat/units/quantity.py:14-15 | instantiation succeeds exactly when construction does, and the fresh object holds the constructed snapshot |
| Quantities.Quantity.BinaryOp | src/wxdat/units/quantity.py:50-64 | a binary operator on objects gives a fresh object holding the combined snapshot and changes no operand |
| Quantities.Quantity.InPlace | src/wxdat/units/quantity.py:66-88 | an in-place operator changes only this object's magnitude, to the combined one, and returns it; on error nothing changes; another operand object keeps its value |
| Quantities.Le | src/wxdat/units/quantity.py:98-100 | `<=` raises TypeError with an absent side, otherwise compares the magnitudes |
| Quantities.Ge | src/wxdat/units/quantity.py:106-108 | `>=` raises TypeError with an absent side, otherwise compares the magnitudes |
| Quantities.Trichotomy | src/wxdat/units/quantity.py:90-112 | `!=` is the negation of `==`; for present magnitudes exactly one of `<`, `==`, `>` holds |
| Quantities.EqualitySymmetric | src/wxdat/units/quantity.py:90-92 | equality of two quantities is symmetric, and an absent quantity equals None |
| Quantities.Str | src/wxdat/units/quantity.py:114-121 | str is just the value's text, since no class has a symbol |
| Quantities.CorrectedStr | src/wxdat/units/quantity.py:114-121 | corrected: a present quantity of a class with a symbol shows its number, a space and the symbol; an absent one shows "None" |
| Quantities.StrLacksSymbol | src/wxdat/units/quantity.py:114-121 | the written and corrected texts agree exactly for absent quantities and classes without a symbol; otherwise the corrected text is the written one plus the symbol |
| Quantities.CorrectedStrExamples | tests/test_temperature.py:31-61 | corrected: "0 °C", "32 °F", "273.15 K" and "1 mm/h", while the code as written gives "0" for Celsius(0) |
| Quantities.CorrectedStrVolumes | tests/test_volume.py:25-123 | corrected: "1 L", "1 mL", "1 gal", "1 pt", "1 qt" and "1 fl oz" |
| Quantities.Repr | src/wxdat/units/quantity.py:123-125 | repr is `ClassName(value)`; an absent quantity raises AttributeError because the class lookup is intercepted |
| Quantities.ToFloat | src/wxdat/units/quantity.py:42-44 | float gives the magnitude, TypeError when absent |
| Quantities.ToInt | src/wxdat/units/quantity.py:46-48 | int gives the magnitude truncated toward zero, TypeError when absent |
| UnitFactories.Make | src/wxdat/units/__init__.py:10-97 | a factory's result has the factory's class |
| UnitFactories.FactoriesWrap | src/wxdat/units/__init__.py:10-97 | each factory wraps its argument unchanged; hPa stores 1000 times it and raises on None; kph always raises TypeError |
| UnitFactories.Synonyms | src/wxdat/units/__init__.py:10-42 | m and meter build the same class, as do mi and mile; no other two factories do, and all names differ |
| UnitFactories.Lookup | src/wxdat/units/__init__.py:4-97 | `units.<name>` gives the factory of that name or, failing that, a unit class the package imports under that name; it raises AttributeError exactly when neither exists |
| UnitFactories.LookupNames | src/wxdat/units/__init__.py:10-97 | every factory is found under its own name |
| UnitFactories.LookupMissingNames | src/wxdat/units/__init__.py:4-97 | `units.mmph` and `units.Yard` raise AttributeError, while `units.Meter` is the imported Meter class |
| UnitFactories.ExportedKinds | src/wxdat/units/__init__.py:4-7 | factories exist only for distance, temperature, pressure and velocity |
| UnitFactories.TemperatureFactories | src/wxdat/units/__init__.py:55-67 | degF(32).degC == 0, degC(100).degF == 212 and degK(273.15).degC == 0 |
| UnitFactories.HectopascalFactory | src/wxdat/units/__init__.py:70-72 | hPa(x).hPa == x and hPa(x).Pa == 1000 x |
| LegacyUnits.LegacyGetAttr | src/wxdat/units.py:183-466 | a present value converts as in the package; with an absent value an accessor that returns the stored value gives None and every computing accessor raises TypeError |
| LegacyUnits.LegacyCombine | src/wxdat/units.py:22-40 | `+=` and `-=` combine with any quantity's value, without a class check; an absent side raises TypeError |
| LegacyUnits.LegacyCombineAgrees | src/wxdat/units.py:22-40 | where the package accepts the operand the two modules agree; the flat module also adds a Meter to a Celsius |
| LegacyUnits.Quantity.InPlace | src/wxdat/units.py:22-40 | `+=` and `-=` change only this object's value and return it; on TypeError nothing changes |
| LegacyUnits.LegacyNe | src/wxdat/units.py:46-48 | `!=` is `not ==` and agrees with the package's `!=` |
| LegacyUnits.LegacyStr | src/wxdat/units.py:66-68 | str is the value's text, as in the package |
| LegacyUnits.LegacyFactoryClass | src/wxdat/units.py:469-551 | every flat factory builds a concrete class the flat module defines |
| LegacyUnits.LegacyMake | src/wxdat/units.py:469-551 | a flat factory's result has its class |
| LegacyUnits.Counterpart | src/wxdat/units.py:469-551 | every package factory except mi has a flat factory of the same name |
| LegacyUnits.FactoriesCorrespond | src/wxdat/units.py:469-551 | a name both modules export builds the same class in both; foot, feet and pascal are flat-only |
| LegacyUnits.LegacyRoundTrips | src/wxdat/units.py:334-421 | C -> F -> C and m/s -> mph -> m/s are exact; an absent Celsius gives None in Celsius but TypeError in Fahrenheit |
| Text.NatToString | src/wxdat/recorder.py:36 | decimal text of a natural: non-empty, all digits, no leading zero |
| Text.IntToString | src/wxdat/providers/openweather.py:103 | decimal text of an integer: non-empty, starting with '-' exactly for negatives |
| Text.ParseNatToString | src/wxdat/recorder.py:36 | reading the decimal text back gives the number |
| Text.IntToStringInjective | src/wxdat/providers/openweather.py:103 | different integers have different texts |
| Providers.FromValue | src/wxdat/providers/__init__.py:25-30 | looking a string up among the provider values finds a provider with that value |
| Providers.ValueRoundTrip | src/wxdat/providers/__init__.py:25-30 | each of the five providers is found by its value, and the values are distinct |
| Providers.UserAgent | src/wxdat/providers/__init__.py:90-93 | the agent is `pkg/version` followed by the project homepage suffix |
| Providers.FullHeaders | src/wxdat/providers/__init__.py:104-107 | the headers are the User-Agent plus the caller's headers, with the caller's values winning |
| Providers.Received | src/wxdat/providers/__init__.py:109-129 | a response is returned exactly when one arrived and it is ok |
| Providers.BaseStation.SaferGet | src/wxdat/providers/__init__.py:95-129 | the request uses the merged headers; requests goes up exactly when a response arrives, errors exactly when nothing is returned; the other counters keep their values |
| Providers.StationId | src/wxdat/providers/openweather.py:118 | the id is latitude text, a comma, then longitude text |
| Providers.StationIdDeterminesCoordinates | src/wxdat/providers/openweather.py:118 | when the coordinate texts have no comma, equal ids mean equal coordinates; when `show` is injective, equal ids mean equal coordinates with no other condition |
| Wunderground.FeelsLike | src/wxdat/providers/wunderground.py:36-44 | TypeError exactly when temp is absent; temp >= 70 gives heatIndex, <= 61 windChill, otherwise temp |
| Wunderground.FeelsLikeSources | src/wxdat/providers/wunderground.py:36-44 | the result is temp, heatIndex or windChill, and it ignores both indices exactly in the 61-70 band |
| Wunderground.GetCurrentWeather | src/wxdat/providers/wunderground.py:140-143 | nothing when the fetch failed or has no observations, otherwise the first observation |
| Wunderground.CurrentConditions | src/wxdat/providers/wunderground.py:88-113 | None without weather; AttributeError without imperial data; otherwise the imperial fields copied field by field (pressure to abs_pressure, precipTotal to precip_day, precipRate to precip_hour) |
| Wunderground.HourlyForecast | src/wxdat/providers/wunderground.py:115-118 | the hourly forecast is always None |
| Noaa.FeelsLike | src/wxdat/providers/noaa.py:58-73 | None without a temperature reading; at >= 70 F the heat index, at <= 61 F the wind chill, otherwise the raw Celsius temperature; a missing index measurement raises AttributeError |
| Noaa.CelsiusThresholds | src/wxdat/providers/noaa.py:63-71 | 70 F is 190/9 C and 61 F is 145/9 C |
| Noaa.AgreesWithWunderground | src/wxdat/providers/noaa.py:58-73 | for a present Celsius reading, Weather Underground fed the Fahrenheit values picks the Fahrenheit form of NOAA's choice |
| Noaa.Observe | src/wxdat/providers/noaa.py:96-132 | None when the fetch yields None; AttributeError exactly when a measurement is missing or FeelsLike raises; otherwise the record carries the configured station and the converted measurements |
| OpenWeather.RemarkText | src/wxdat/providers/openweather.py:103 | the remark is `main: description [id]` |
| OpenWeather.Remarks | src/wxdat/providers/openweather.py:96-103 | None exactly when the weather list is absent or empty, otherwise the remark of the first note |
| OpenWeather.RemarksUseFirstNote | src/wxdat/providers/openweather.py:96-103 | notes after the first never change the remark |
| OpenWeather.RemarkIdentifiesNote | src/wxdat/providers/openweather.py:103 | for colon-free main texts, two notes give equal remarks exactly when they are the same note (id, main and description) |
| OpenWeather.NewStation | src/wxdat/providers/openweather.py:106-118 | the station id is the coordinate id |
| OpenWeather.AsReal | src/wxdat/providers/openweather.py:140-156 | an integer reading becomes the same real; absence stays absent |
| OpenWeather.Observe | src/wxdat/providers/openweather.py:126-159 | None when the fetch yields None; otherwise abs_pressure from grnd_level, rel_pressure from sea_level, and bearing, humidity and cloud cover copied unchanged |
| OpenWeather.PressureFieldUnused | src/wxdat/providers/openweather.py:140-156 | the record does not depend on the main pressure field |
| DarkSky.Percent | src/wxdat/providers/darksky.py:175 | a fraction times 100; TypeError when absent |
| DarkSky.PressureInHg | src/wxdat/providers/darksky.py:177 | hPa(p).inHg is 1000 p / 3386.3886666667; TypeError when absent |
| DarkSky.PrecipInph | src/wxdat/providers/darksky.py:178 | corrected: `MillimetersPerHour(x).inph`, x * 0.1 * 0.393700787, which tests/test_rate.py:10-18 expects of `units.mmph`; absent stays absent |
| DarkSky.PrecipAsWritten | src/wxdat/providers/darksky.py:178 | as written, `units.mmph(x).inph` raises AttributeError for every rate |
| DarkSky.MapCurrent | src/wxdat/providers/darksky.py:166-184 | corrected mapping (provider value supplied, precipitation through MillimetersPerHour): fails exactly when humidity, pressure or cloud cover is absent; otherwise humidity and cloud cover scaled by 100, pressure and precipitation converted, the rest copied |
| DarkSky.MapCurrentAsWritten | src/wxdat/providers/darksky.py:166-184 | as written with a provider value: always fails; TypeError when humidity or pressure is absent, otherwise AttributeError at `units.mmph` |
| DarkSky.MapHour | src/wxdat/providers/darksky.py:198-216 | corrected mapping (provider value supplied, precipitation through MillimetersPerHour): fails exactly when pressure or cloud cover is absent; cloud cover scaled by 100 but humidity copied unscaled |
| DarkSky.MapHourly | src/wxdat/providers/darksky.py:197-218 | succeeds exactly when every hour maps; one entry per hour, in order |
| DarkSky.MapHourlyAsWritten | src/wxdat/providers/darksky.py:197-218 | as written with a provider value: only an empty hour list maps (to []); otherwise AttributeError at `units.mmph` |
| DarkSky.ProviderFixStillRaises | src/wxdat/providers/darksky.py:166-218 | for a complete payload with at least one hour, the as-written mappings raise AttributeError even with a provider value, while the corrected ones map the conditions and every hour |
| DarkSky.ForecastTimes | src/wxdat/providers/darksky.py:194-218 | each entry has its hour's time and the shared origin time of the current conditions |
| DarkSky.CurrentAsWritten | src/wxdat/providers/darksky.py:153 | as written, after any successful fetch the current conditions raise AttributeError |
| DarkSky.ForecastAsWritten | src/wxdat/providers/darksky.py:153-218 | as written, after a successful fetch the forecast raises AttributeError unless the hourly list is empty, which gives [] |
| DarkSky.AsWrittenRecordsNothing | src/wxdat/providers/darksky.py:153-218 | for a complete fetch with one hour, both as-written properties raise while the corrected ones yield a record and a forecast |
| DarkSky.CurrentOf | src/wxdat/providers/darksky.py:156-184 | corrected: None without a fetch, otherwise the mapped current conditions |
| DarkSky.ForecastOf | src/wxdat/providers/darksky.py:187-218 | corrected: None without a fetch, otherwise the mapped hourly list |
| DarkSky.Station.CurrentConditions | src/wxdat/providers/darksky.py:156-160 | the cache is overwritten with the fresh fetch and the result is its current conditions |
| Providers.Instantiate | src/wxdat/providers/__init__.py:73-88 | creating a station succeeds exactly when both abstract properties, `observe` and `provider`, are defined; otherwise it raises TypeError |
| Providers.AbstractStations | src/wxdat/providers/__init__.py:82-84 | as written, creating a station raises TypeError exactly for the Dark Sky and Weather Underground classes, which define no `observe` |
| Providers.BuiltStationsObserve | src/wxdat/providers/__init__.py:82-84 | every station class that can be built defines `observe` and not `current_conditions` |
| Providers.CorrectedDefined | src/wxdat/providers/darksky.py:134-160 | corrected: each class defines what it defines as written, plus at most `observe` |
| Providers.CorrectedStationsInstantiate | src/wxdat/providers/__init__.py:82-84 | corrected: with `observe` defined, every station class can be created, and each defines `observe` |
| DarkSky.Station.HourlyForecast | src/wxdat/providers/darksky.py:187-192 | the cache is overwritten with the fresh fetch and the result is its forecast |
| Schedule.NextSleep | src/wxdat/recorder.py:70-76 | the sleep is never negative; it is zero exactly when the interval has passed, and otherwise ends exactly at last_exec + interval |
| Schedule.WakesOnTime | src/wxdat/__init__.py:73-82 | after the computed sleep the clock reads last_exec + interval, or now when that time has already passed; it is never earlier than the due time |
| Stations.NewStation | src/wxdat/stations/__init__.py:12-19 | a new station has its name, no last update and a 30-minute interval |
| Stations.NewStationState | src/wxdat/stations/__init__.py:21-32 | Name returns the constructor's name and a new station is not current |
| Stations.CurrentUntilWindowEnds | src/wxdat/stations/__init__.py:30-41 | a station is current exactly while now - last_update <= interval |
| Stations.SafeGet | src/wxdat/stations/__init__.py:43-61 | None exactly when the request raised; any response that arrived is returned, ok or not |
| Stations.SafeGetKeepsFailedResponses | src/wxdat/stations/__init__.py:58-61 | this fetch and the providers' `safer_get` differ exactly on responses that are not ok |
| Storage.Database.Save | src/wxdat/database.py:108-130 | the entry is written once; writes and sessions go up by one, and exactly one of errors (rollback, result False) or commits (result True) goes up; the counters stay consistent |
| Storage.ExtendsCompose | src/wxdat/database.py:108-130 | saving a list of entries and then another counts the same sessions, writes, rollbacks and commits as saving the two lists joined |
| Storage.ExtendsKeepsConsistent | src/wxdat/database.py:108-130 | a run of saves keeps every write paired with one session and with exactly one rollback or commit |
| Recorder.RecorderId | src/wxdat/recorder.py:34-36 | the id is the provider value, a dash, then the count in decimal |
| Recorder.RecorderIdNamesCount | src/wxdat/recorder.py:34-36 | for one provider, two ids are equal exactly when the counts are |
| Recorder.SavesAtMostSteps | src/wxdat/recorder.py:64-87 | a run saves at most one entry per step |
| Recorder.DataRecorder.constructor | src/wxdat/recorder.py:17-20 | construction raises the class-wide count by one and names the thread after the id at that count |
| Recorder.DataRecorder.RecordCurrentConditions | src/wxdat/recorder.py:91-116 | no observation returns False and changes nothing; otherwise metrics and database see it once and exactly one of readings (committed) and failed goes up; True is returned; the database's counters move as one save does, or not at all, and stay consistent |
| Recorder.DataRecorder.RunLoop | src/wxdat/recorder.py:57-87 | each step runs only with the flag unset; every observation read is saved in order and counted once as a reading or failure; every sleep is the clamped schedule; a raising step ends the loop; the database's session, write, rollback and commit counters count exactly the run's saves and stay consistent |
| Observer.StationUpdate | src/wxdat/__init__.py:97-102 | an exception propagates, an absent record raises AttributeError, a record is to be saved |
| Observer.StepSavesInOrder | src/wxdat/__init__.py:90-95 | when no update raises, a pass saves exactly one entry per watched station, in watch order |
| Observer.AsWrittenRead | src/wxdat/__init__.py:97-99 | as written, reading a station raises AttributeError exactly when its class lacks `current_conditions`; otherwise it gives the reading |
| Observer.AsWrittenSavesNothing | src/wxdat/__init__.py:90-102 | as written, when the first watched station was built, a run saves nothing and ends after at most one pass, which raises AttributeError |
| Observer.Observer.constructor | src/wxdat/__init__.py:16-27 | a new observer watches nothing, and its interval defaults to 300 |
| Observer.Observer.Watch | src/wxdat/__init__.py:31-38 | None raises ValueError and changes nothing; any other station is appended at the end |
| Observer.Observer.UpdateStationData | src/wxdat/__init__.py:97-102 | saves the station's conditions exactly once, counted as one session, one write and a commit or rollback, or raises leaving the database unchanged; the counters stay consistent |
| Observer.Observer.ThreadLoopStep | src/wxdat/__init__.py:90-95 | updates the watched stations in order, stopping at the first exception; the database's counters count exactly the pass's saves and stay consistent |
| Observer.Observer.RunLoop | src/wxdat/__init__.py:59-88 | each pass runs only with the flag unset; the watched list does not change; the saves are the passes' saves in order, and the database's counters count exactly those; every sleep is the clamped schedule; the counters stay consistent |
| Monitor.Monitor.AddStation | src/wxdat.py:35-36 | the station is appended to the list shared by every monitor |
| Monitor.AddThroughOne | src/wxdat.py:28-36 | a station added through one monitor is seen by another |
| Monitor.Monitor.RunLoopStep | src/wxdat.py:57-62 | every station of the shared list is updated once, in list order |
| Monitor.Monitor.Run | src/wxdat.py:39-54 | with no stations it returns at once; otherwise each step updates the whole list, until the interrupt; each station is updated once per listing per step |
| Monitor.RepeatCounts | src/wxdat.py:47-62 | n steps make n times as many updates as there are listed stations; each station is updated n times per listing, and the k-th update is of the station at position k mod the list length |
| Monitor.Describe | src/wxdat.py:92-111 | "Unknown" exactly for names outside the six known metrics |
| Monitor.MetricName | src/wxdat.py:75 | the metric name is `wx_`, the station name, `_`, the gauge name |
| Monitor.MetricNameInjective | src/wxdat.py:75 | for one station, different gauge names give different metric names |
| Monitor.WeatherData.UpdateGauge | src/wxdat.py:74-89 | a gauge is built only when none is cached under the metric name, then reused; the cache only grows and no gauge is built twice; each set is logged with its units label |
| Monitor.WeatherData.SetTemperature | src/wxdat.py:114-115 | sets the temperature gauge, in F by default; the gauge is built only if none is cached under its metric name, every other gauge is unchanged, and at most that one gauge is added to those created |
| Monitor.WeatherData.SetWindSpeed | src/wxdat.py:118-119 | sets the windSpeed gauge, in mph by default; the gauge is built only if none is cached under its metric name, every other gauge is unchanged, and at most that one gauge is added to those created |
| Monitor.WeatherData.SetWindGust | src/wxdat.py:122-123 | sets the windGust gauge, in mph by default; the gauge is built only if none is cached under its metric name, every other gauge is unchanged, and at most that one gauge is added to those created |
| Monitor.WeatherData.SetWindDirection | src/wxdat.py:126-127 | sets the windHeading gauge with no units; the gauge is built only if none is cached under its metric name, every other gauge is unchanged, and at most that one gauge is added to those created |
| Monitor.WeatherData.SetHumidity | src/wxdat.py:130-131 | sets the humidity gauge with no units; the gauge is built only if none is cached under its metric name, every other gauge is unchanged, and at most that one gauge is added to those created |
| Monitor.WeatherData.SetPressure | src/wxdat.py:134-135 | sets the pressure gauge, in Hg by default; the gauge is built only if none is cached under its metric name, every other gauge is unchanged, and at most that one gauge is added to those created |

## Left out

- Threads, events, locks, joins and wall-clock sleeping are not modelled. Each loop runs
  over a given sequence of ticks. The stop flag is read once per tick, when the loop
  condition is checked.
- Rate limiting (`sleep_and_retry`, `limits`), HTTP, JSON and pydantic validation are not
  modelled. A fetch is a parameter: a parsed payload or nothing.
- The conversion library that the NOAA and OpenWeatherMap stations call (Celsius to
  Fahrenheit, m/s to mph, Pa to inHg, meters to miles, ...) is not part of this model. The
  conversions applied to an observation's fields are function parameters.
- Noaa.FeelsLike: takes the library's Celsius-to-Fahrenheit conversion to be 1.8 C + 32, the
  unit package's own formula, instead of a parameter.
- The SQLAlchemy session is not modelled. Whether a save commits is a function of the entry.
  The database's own session, write, error and commit counters are plain fields of
  Storage.Database.
- The metrics classes `BaseStationMetrics` and `WeatherConditionMetrics` are not part of
  this model. The station counters are plain fields. The observations handed to the
  condition metrics are logged.
- The prometheus `Gauge` is a plain value. What it does with a set value is logged.
- The AccuWeather and Ambient Weather providers, configuration, the command-line entry
  points, the developer tools, `src/stations.py` and `parse_duration` are outside the
  modelled core.
- Floating-point rounding is not modelled. Magnitudes are exact reals.
- Python's `str` of a number is a parameter (`show`). The model relies only on it being
  some text.
- Monitor.Monitor.Run: the keyboard interrupt is taken to arrive during a sleep, after a
  given number of whole steps. An interrupt in the middle of a step is not modelled.
- Recorder.RecorderId: the provider is rendered by its value, as Python 3.10 formats a
  `str`-based enumeration. Python 3.11 and later render the member name
  (`WeatherProvider.NOAA`), which is not modelled.
- Recorder.DataRecorder.RunLoop: an exception other than those the model raises ends the
  thread and is not modelled. The same applies to Observer.Observer.RunLoop.
- Lookup: only the factories and the imported unit classes are modelled as members of the
  unit package. Its submodules and dunder attributes are not.
- DarkSky.Station: the class as written cannot be created (see Findings). The model describes
  it once `observe` is defined. The same applies to Wunderground.CurrentConditions and the
  other Weather Underground members.
- Observer.StationUpdate: the reader is a parameter. The members that take any reader
  describe the observer once it reads `observe`. Observer.AsWrittenSavesNothing shows what
  the code as written does.
- DarkSky.PressureInHg keeps the package's 1000 Pa per hectopascal, because that is what
  the code computes (see Findings).

## Findings

| source | as written | input that shows it | evidently intended | confidence | as-written member | corrected member |
|---|---|---|---|---|---|---|
| src/wxdat/units/distance.py:114-116 | imperial `meters` is `feet * 1609.344` | `Feet(1).meters` is 1609.344 | `feet * 0.3048` | high, not executed | Distance.FeetMetersAsWritten | Distance.CorrectedMeters, Distance.CorrectedMetersAgree |
| src/wxdat/units/pressure.py:59-61 | InchesMercury `Pa` is `value / 3386.3886666667` | `InchesMercury(29.92).Pa` is under 0.01 | `value * 3386.3886666667` | high, not executed | Pressure.InHgToPaAsWritten | Pressure.CorrectedPa, Pressure.CorrectedPaRoundTrip |
| src/wxdat/units/pressure.py:27-47 | a hectopascal is taken as 1000 Pa | `hPa(1).inHg` is about 0.2953, where tests/test_pressure.py:32 expects 0.02953 | 100 Pa per hectopascal | high, not executed | Pressure.HectopascalAsWritten | Pressure.CorrectedStored, Pressure.CorrectedHPa, Pressure.CorrectedHectopascal |
| src/wxdat/units/velocity.py:33-35 | MetersPerSecond `kph` is `mps / 3.6` | `mps(1).kph` is about 0.278 | `mps * 3.6` | high, not executed | Velocity.MpsKphAsWritten | Velocity.CorrectedKph, Velocity.CorrectedKphAgrees |
| src/wxdat/units/weight.py:20-37 | `mg` is `g * 0.001` and `ton` is `lbs * 2000` | 1 kg reports 1 mg; 1 lb reports 2000 tons | `g * 1000` and `lbs / 2000` | high, not executed | Weight.MgTonAsWritten | Weight.CorrectedMilligrams, Weight.CorrectedTons, Weight.CorrectedExamples |
| src/wxdat/providers/darksky.py:153 | `provider` returns `WeatherProvider.DARKSKY`, which the enum does not define | any successful fetch makes `current_conditions` raise AttributeError | a Dark Sky provider value | high, not executed | DarkSky.CurrentAsWritten, DarkSky.ForecastAsWritten, DarkSky.AsWrittenRecordsNothing | DarkSky.CurrentOf, DarkSky.ForecastOf, DarkSky.Station.CurrentConditions |
| src/wxdat/providers/darksky.py:178-209 | `units.mmph(...)`, but the unit package defines no `mmph` factory | with a provider value supplied, a complete payload still makes `current_conditions` and every non-empty `hourly_forecast` raise AttributeError | `MillimetersPerHour(x).inph`, as tests/test_rate.py:10 expects of `units.mmph` | high, not executed | DarkSky.PrecipAsWritten, DarkSky.MapCurrentAsWritten, DarkSky.MapHourlyAsWritten, DarkSky.ProviderFixStillRaises | DarkSky.PrecipInph, DarkSky.MapCurrent, DarkSky.MapHour |
| src/wxdat/providers/__init__.py:82-84 | `observe` is abstract, and the Dark Sky (darksky.py:134) and Weather Underground (wunderground.py:73) stations define `current_conditions` but not `observe` | creating either station raises TypeError, as tests/test_darksky.py:10 does | both classes define `observe` | high, not executed | Providers.AbstractStations | Providers.CorrectedDefined, Providers.CorrectedStationsInstantiate, DarkSky.Station.CurrentConditions |
| src/wxdat/__init__.py:99 | `update_station_data` reads `station.current_conditions` | every station that can be built defines only `observe`, so the first pass raises AttributeError at the first station and nothing is saved | read `station.observe` | high, not executed | Observer.AsWrittenRead, Observer.AsWrittenSavesNothing | Observer.StepSavesInOrder, Observer.Observer.RunLoop |
| src/wxdat/units/quantity.py:146-149 | `UnitSymbol` has no members (quantity.py:7-8) and `symbol` is None for every class | `str(Celsius(0))` is "0", where tests/test_temperature.py:31 expects "0 °C" (likewise tests/test_rate.py:20 and tests/test_volume.py:25-123) | each class reports its symbol, so `str` appends it | high, not executed | Quantities.Symbol, Quantities.Str, Quantities.StrLacksSymbol | Quantities.CorrectedStr, Quantities.CorrectedStrExamples, Quantities.CorrectedStrVolumes |
