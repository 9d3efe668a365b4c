# Space bodies: a verified model of the celestial-body core

This project models the celestial-body data model of Space-Bodies-Project-Improved in Dafny and proves properties of it. That data model lives in `src/classes.cpp` and `src/classes.h`, and has three entities:

- **Space bodies.** A body has a name, a diameter in km and a mass in kg. The constructor rejects a non-positive diameter or mass. Surface gravity and escape velocity are computed from the mass and diameter.
- **Planets.** A planet is a space body whose mass an asteroid impact reduces in place.
- **Asteroids.** An asteroid is built from a near-Earth-object record: a JSON object with the name, id, NASA JPL URL, absolute magnitude, hazard flag, the two estimated-diameter bounds and the list of close approaches. Its mass is derived from the two diameter bounds. Each close-approach miss distance is halved and floored at twice the Earth's radius. Two asteroids can be merged with `operator+`, and an asteroid has an impact energy.

The modules follow the program's structure:

| file | module | what it holds |
|---|---|---|
| `errors.dfy` | `Errors` | the exceptions the constructors throw (`std::invalid_argument`; `out_of_range` and `type_error` from the JSON library) as an `Error` value, plus `Result` and `Option` |
| `records.dfy` | `Records` | the record as a `Json` datatype, with `at`, `get<T>`, range-`for` iteration and `std::stod` as functions that fail the way the library does |
| `bodies.dfy` | `Bodies` | the `SpaceBody` validation, surface gravity and escape velocity |
| `asteroids.dfy` | `Asteroids` | `CloseApproachData`; the asteroid as a value; `calculateMass`; construction from a record, as a function and as a loop; `calculateImpactEnergy`; `operator+` |
| `planets.dfy` | `Planets` | `Planet` as a class with a mutable `mass`, and `handleImpact` |
| `scenarios.dfy` | `Scenarios` | the records and expectations of the unit tests, proved over the model |

Modelling decisions:

- **Numbers.** `double` is `real`, so there is no rounding. `M_PI` is its decimal value to 20 places. `pow(x, 2)` and `pow(x, 3)` are `Sq` and `Cube`.
- **Foreign functions.** `std::sqrt` is a function parameter. It is constrained by `IsSqrt`: for every x ≥ 0, the result is non-negative and squares to x. `std::stod` is a parameter of type `string -> Option<real>`, and `None` stands for `invalid_argument("stod")`.
- **Asteroids are values.** No member of `Asteroid` changes an asteroid after construction, and `operator+` builds a new one. So an asteroid is a `datatype`, and a copy (the copy constructor, `src/classes.cpp:104-115`) is the value itself. Both operands of a merge and the impactor of `handleImpact` cannot change.
- **Planets are objects.** `handleImpact` updates `mass` in place, so `Planet` is a class. Its name and diameter are `const`.
- **Construction is all-or-nothing.** The constructor either returns `Ok(asteroid)` or the first error in its evaluation order, and nothing is built on an error.
- **Evaluation order.** C++ initialises the base class first, then the members in their declaration order (`src/classes.h:70-76`: id, URL, magnitude, then the hazard flag), and then runs the constructor body. Here that order agrees with the order of the mem-initialiser list (`src/classes.cpp:76-84`). The model reads:
  - name, minimum diameter, then `calculateMass`, which reads the minimum and then the maximum;
  - the body check;
  - id, URL, magnitude and hazard flag;
  - in the body, the two diameter bounds, then the approach entries in order, each reading its date, then its velocity, then its miss distance.

  C++ leaves the order of the base constructor's three arguments unspecified. Reading them left to right is therefore a choice, and it decides only *which* error a record with several faults reports.

Three points where the code does not say what it means were resolved as follows:

1. **Reference fields.** `relativeVelocityKmPerS` and `missDistanceKm` are read and summed (`src/classes.cpp:135, 148-149`). They are never declared in `src/classes.h:69-76`, and never initialised. The getters (`src/classes.cpp:193-207`) do not read these fields: they return the first approach's values, or 0.0 when there is none. In the model the reference values are two fields of the asteroid. Construction sets them to what the getters return, and the merge sums them. This is what the merge test expects of the getters (`test_astroid.cpp:224-225`). The getters as written would return `a`'s first approach instead (see Findings).
2. **Merged diameter.** `operator+` never updates the inherited `diameter`, yet the merge test expects the summed minimum (`test_astroid.cpp:222`). The model keeps `diameter == minDiameterKm` as part of the asteroid invariant `Valid`, so its merge `Combine` sets the diameter to the summed minimum. The code as written is modelled too, under Findings.
3. **Mass assigned twice.** Mass is assigned in the initialiser list and again in the constructor body (`src/classes.cpp:79, 101`), with the same value. The model assigns it once.

The entities and the asteroid invariant:

| entity | source | holds |
|---|---|---|
| `Bodies.SpaceBody` | src/classes.h:36-40 | the name, the diameter in km and the mass in kg |
| `Bodies.ValidBody` | src/classes.cpp:9-14 | what the body constructor lets through: a positive diameter and a positive mass |
| `Asteroids.CloseApproach` | src/classes.h:18-22 | a close approach's date, relative velocity in km/s and miss distance in km |
| `Asteroids.Asteroid` | src/classes.h:69-76 | the body, the id, the URL, the magnitude, the two diameter bounds, the hazard flag and the approach list, plus the two reference values |
| `Planets.Planet` | src/classes.h:43-49 | a space body whose name and diameter are constant and whose mass an impact changes |
| `Planets.Planet.Valid` | src/classes.cpp:9-10 | the positive diameter of the body check, which every impact preserves |
| `Asteroids.Valid` | src/classes.cpp:78-88 | a valid body whose diameter is the minimum bound (both read from `estimated_diameter_min`), and approaches whose miss distances are all at least 12742 |

## Model

| member | source | states |
|---|---|---|
| Records.At | src/classes.cpp:77-84 | `at(key)` succeeds exactly on an object holding `key` and yields its value. Otherwise it fails with `MissingField(key)` (`out_of_range`), or with `WrongType(key)` on a non-object |
| Records.StringAt | src/classes.cpp:77-93 | `get<string>()` after a chain of `at`s succeeds exactly when the chain succeeds and ends on a string, and yields that string |
| Records.NumberAt | src/classes.cpp:78-88 | `get<double>()` succeeds exactly when the chain ends on a number, and yields that number |
| Records.BoolAt | src/classes.cpp:84 | `get<bool>()` succeeds exactly when the chain ends on a boolean, and yields it |
| Records.Elements | src/classes.cpp:90-91 | a range-`for` visits an array's items in order, nothing for null, and a primitive value once; an object fails |
| Records.ParseNumber | src/classes.cpp:94-95 | `stod` succeeds exactly where the parser gives a number, yields it, and otherwise fails with `invalid_argument("stod")` |
| Records.AtPath | src/classes.cpp:77-95 | a chain of `at`s; the empty chain yields the value itself |
| Records.AtPathErrorNamesKey | src/classes.cpp:77-95 | a failed chain of `at`s fails with `out_of_range` or `type_error`, naming one of the keys on its path |
| Records.AtPathMissingKey | src/classes.cpp:77-95 | when the first i keys of a chain reach an object that lacks key i, the whole chain fails with `MissingField` of key i |
| Records.AtPathOne | src/classes.cpp:77 | a one-key path is exactly one `at` |
| Records.AtPathTwo | src/classes.cpp:94-95 | a two-key path succeeds exactly when both objects on the way hold their key, and yields the inner value |
| Records.AtPathThree | src/classes.cpp:86-88 | a three-key path succeeds exactly when the first object holds its key and the rest of the path succeeds below it |
| Bodies.MakeSpaceBody | src/classes.cpp:6-15 | a body is built exactly when diameter > 0 and mass > 0, and then stores exactly the given name, diameter and mass. A non-positive diameter fails with "Diameter must be positive.", checked before the mass; a positive diameter with a non-positive mass fails with "Mass must be positive." |
| Bodies.RadiusMeters | src/classes.cpp:23 | the radius in metres, half of the diameter times 1000, is positive exactly when the diameter is, and non-negative exactly when the diameter is |
| Bodies.SurfaceGravity | src/classes.cpp:21-25 | g·r² = G·mass with r = diameter·1000/2, and g > 0 for a positive mass |
| Bodies.GravityIncreasesWithMass | src/classes.cpp:21-25 | at a fixed diameter, surface gravity strictly increases with mass |
| Bodies.GravityDecreasesWithDiameter | src/classes.cpp:21-25 | at a fixed positive mass, surface gravity strictly decreases as the diameter grows |
| Bodies.EscapeVelocity | src/classes.cpp:27-32 | for a non-negative mass, v ≥ 0 and (1000·v)² = 2·G·mass/r; v > 0 for a positive mass |
| Bodies.EscapeVelocityIncreasesWithMass | src/classes.cpp:27-32 | at a fixed diameter, escape velocity strictly increases with mass |
| Bodies.EscapeVelocityDecreasesWithDiameter | src/classes.cpp:27-32 | at a fixed positive mass, escape velocity strictly decreases as the diameter grows |
| Bodies.Sq | src/classes.cpp:136 | `pow(x, 2)` is non-negative, and positive for x ≠ 0 |
| Bodies.Cube | src/classes.cpp:167-168 | `pow(x, 3)` is non-negative for x ≥ 0, and positive for x > 0 |
| Asteroids.SphereVolume | src/classes.cpp:167-168 | the volume of a sphere, (4/3)·π·r³, is non-negative for a non-negative radius and positive for a positive one |
| Asteroids.MassFromDiameters | src/classes.cpp:159-174 | the density 3000 times the mean of the two sphere volumes is non-negative for non-negative diameters, and positive when one of them is positive |
| Asteroids.CalculateMass | src/classes.cpp:159-174 | the static `calculateMass` succeeds exactly when both diameter bounds are numbers, yields `MassFromDiameters` of exactly those two, and fails with the minimum's error when that read fails, and otherwise with the maximum's error when that read fails |
| Asteroids.MassSymmetric | src/classes.cpp:164-170 | swapping the two diameter bounds does not change the mass |
| Asteroids.MassScalesAsCube | src/classes.cpp:164-173 | with equal bounds, scaling the diameter by k scales the mass by k³ |
| Asteroids.MassAtLeastMeanDiameterMass | src/classes.cpp:164-173 | averaging the two volumes never gives less mass than the sphere of the mean diameter, and gives strictly more whenever the bounds differ |
| Asteroids.NormalizeMissDistance | src/classes.cpp:97 | the stored miss distance is max(raw/2, 12742): it is at least both, and equal to one of them |
| Asteroids.NumericTextAt | src/classes.cpp:94-95 | `stod(…get<string>())` succeeds exactly when the chain ends on a string that the parser accepts, and yields the parsed number |
| Asteroids.ParseApproach | src/classes.cpp:92-98 | an entry converts exactly when its date is a string and its velocity and miss distance are texts `stod` accepts. The date and velocity are copied, the miss distance is normalised, and the result is at least 12742 |
| Asteroids.ApproachList | src/classes.cpp:90-99 | the list converts exactly when every entry does. It has one approach per entry, and the approach at position k is exactly entry k's conversion |
| Asteroids.ApproachListFailureSticks | src/classes.cpp:90-99 | once a prefix of the entries fails, every longer prefix fails with the same error |
| Asteroids.ApproachListFirstFailure | src/classes.cpp:90-99 | when all entries before k convert and entry k does not, construction reports entry k's error |
| Asteroids.ApproachEntries | src/classes.cpp:90-91 | the approach entries are available exactly when `close_approach_data` is present and is not an object. They are the array's items in order, none for null, and a primitive value once. When the key is absent, the error is that of `at` |
| Asteroids.FirstVelocity | src/classes.cpp:193-199 | the body of `getRelativeVelocityKmPerS`: the first approach's velocity, or 0.0 for an empty list. Construction uses it to initialise the reference velocity |
| Asteroids.FirstMissDistance | src/classes.cpp:201-207 | the body of `getMissDistanceKm`: the first approach's miss distance, or 0.0 for an empty list. Construction uses it to initialise the reference miss distance |
| Asteroids.ReferenceValuesFromFirstEntry | src/classes.cpp:193-207 | a built asteroid's reference velocity and miss distance are 0.0 without entries, and otherwise the first entry's velocity and its normalised miss distance, as the two getters read them |
| Asteroids.ParseAsteroid | src/classes.cpp:75-102 | a built asteroid is `Valid` (a valid body, diameter = minimum bound, every miss distance ≥ 12742). Every read it makes succeeded, and each field holds exactly the value read. The mass is `MassFromDiameters` of the two bounds, the approaches are `ApproachList` of the entries, and the reference values are those of the getters |
| Asteroids.ParseAsteroidSucceedsIff | src/classes.cpp:75-102 | construction succeeds if and only if every field is present with the right type, every entry converts, and the body check passes |
| Asteroids.MissingKeyFails | src/classes.cpp:75-91 | a record lacking any of the seven top-level keys builds no asteroid |
| Asteroids.MissingNameReported | src/classes.cpp:77 | a record without `name` fails with `out_of_range` for `name` |
| Asteroids.MissingDiameterReported | src/classes.cpp:78 | a record with a name but without `estimated_diameter` fails with `out_of_range` for `estimated_diameter` |
| Asteroids.MissingIdReported | src/classes.cpp:81 | a record whose name, diameter bounds and body check pass but which lacks `id` fails with `out_of_range` for `id` |
| Asteroids.MissingDiameterFieldFails | src/classes.cpp:161-162 | a record missing any key along either diameter path (`estimated_diameter`, `kilometers`, or the bound itself) builds no asteroid |
| Asteroids.MissingApproachFieldFails | src/classes.cpp:93-95 | a record with an approach entry missing any key along its date, velocity or miss-distance path, including the nested `kilometers_per_second` and `kilometers`, builds no asteroid |
| Asteroids.ParsedApproachesNormalized | src/classes.cpp:90-99 | the approach list of a built asteroid has the length and order of the entries, copies each date and velocity, stores max(raw/2, 12742) for each miss distance, and so every miss distance is ≥ 12742 |
| Asteroids.FromRecord | src/classes.cpp:75-102 | the constructor's loop, which appends one converted entry at a time and stops at the first failure, yields exactly `ParseAsteroid` |
| Asteroids.ImpactEnergy | src/classes.cpp:134-139 | for a non-negative mass the energy is ≥ 0. It is exactly 0 when the reference velocity is 0, and positive for a positive mass and a non-zero velocity |
| Asteroids.ImpactEnergyQuadratic | src/classes.cpp:134-139 | scaling the reference velocity by k scales the energy by k² |
| Asteroids.ImpactEnergyEven | src/classes.cpp:134-139 | reversing the reference velocity does not change the energy |
| Asteroids.Combine | src/classes.cpp:141-153 | merging yields the joined name `a & b`; the sums of the two minimum bounds, the two maximum bounds, the masses, and the two reference values; the diameter equal to the summed minimum; and the hazard flag `summed minimum > 280 or summed velocity > 5.0`. The id, URL, magnitude and approach list come from `a` |
| Asteroids.GettersAsWrittenAfterMerge | src/classes.cpp:193-207 | as written, the merged asteroid's getters read `a`'s first approach, and differ from the summed reference velocity whenever `b`'s is not zero |
| Asteroids.Plus | src/classes.cpp:141-153 | the step-by-step update of a copy of `a` yields exactly `Combine(a, b)` |
| Asteroids.CombineSumsCommute | src/classes.cpp:144-151 | swapping the operands leaves the mass, the diameters, the reference values and the hazard flag unchanged |
| Asteroids.CombinePreservesValid | src/classes.cpp:141-153 | merging two valid asteroids gives a valid one |
| Asteroids.CombineIgnoresHazardFlags | src/classes.cpp:151 | the merged hazard flag does not depend on either operand's own flag |
| Asteroids.CombineAssociative | src/classes.cpp:141-153 | `(a + b) + c` and `a + (b + c)` are the same asteroid |
| Asteroids.CombineAsWritten | src/classes.cpp:141-153 | as written, the merge keeps `a`'s diameter and is otherwise `Combine` |
| Asteroids.CombineAsWrittenBreaksDiameter | src/classes.cpp:141-153 | as written, merging two valid asteroids gives a diameter strictly below the summed minimum, so the result is not `Valid` |
| Planets.Planet.Body | src/classes.h:36-45 | the planet's body fields are its name, diameter and current mass |
| Planets.Planet.constructor | src/classes.cpp:51-52 | a planet stores exactly the given name, diameter and mass |
| Planets.NewPlanet | src/classes.cpp:6-52 | `Planet(name, diameter, mass)` succeeds exactly when the body check does and fails with the same error. On success it is a fresh planet whose body is the checked body |
| Planets.Planet.HandleImpact | src/classes.cpp:60-68 | the planet's mass becomes exactly the old mass minus the impactor's mass, with no floor. Name and diameter are constants, and the impactor is a value that cannot change |
| Planets.GravityAfterImpact | src/classes.cpp:60-68 | after an impact the diameter is still positive, so surface gravity stays defined; it is computed from the reduced mass, g·r² = G·(old mass − impactor mass) |
| Planets.ImpactWithoutFloor | src/classes.cpp:60-68 | a 1 kg planet hit by a 3 kg asteroid is left with −2 kg |
| Planets.ImpactsAccumulate | src/classes.cpp:60-68 | two impacts in a row remove the sum of the two masses |
| Scenarios.ParseApproachRecord | src/classes.cpp:92-98 | an entry holding a date and two numeric texts converts to the date, the velocity and the normalised miss distance |
| Scenarios.AsteroidRecordReads | src/classes.cpp:76-90 | on a record written as the tests write them, every read of the constructor and of `calculateMass` yields the value written |
| Scenarios.ParseAsteroidRecord | src/classes.cpp:75-102 | a complete record with a positive minimum bound and convertible entries builds the asteroid holding exactly its values |
| Scenarios.OneApproachList | src/classes.cpp:90-99 | a one-entry list converts to the list of its one approach |
| Scenarios.TwoApproachList | src/classes.cpp:90-99 | a two-entry list converts to its two approaches, in order |
| Scenarios.OperatorPlusScenario | test_astroid.cpp:166-227 | the merged test asteroids are named "AsteroidOne & AsteroidTwo", with diameter 1.2, the summed mass, velocity 22.5, miss distance 4250000, and hazardous |
| Scenarios.MergedGettersAsWrittenScenario | test_astroid.cpp:218-225 | on the merge test's records, the merged asteroid's first approach has velocity 10 and miss distance 500000, while its reference values are the expected 22.5 and 4250000 |
| Scenarios.IncompleteRecordScenario | test_astroid.cpp:71-92 | the record without `estimated_diameter` fails with `MissingField("estimated_diameter")` |
| Scenarios.MultipleApproachesScenario | test_astroid.cpp:320-373 | the two-entry record builds two approaches in order with miss distances 2000000 and 2500000, and keeps the record's NASA JPL URL |
| Scenarios.ZeroVelocityScenario | test_astroid.cpp:290-317 | the asteroid at velocity "0.0" has impact energy exactly 0 |
| Scenarios.InvalidPlanetScenario | test_planet.cpp:41-51 | diameter −500 and mass −1 are both rejected, each with its own message |
| Scenarios.GravityScenario | test_planet.cpp:53-64 | the tiny planet's gravity is positive, and the giant planet's is larger |
| Scenarios.EarthImpactScenario | test_planet.cpp:79-123 | the Earth hit by the 1 km to 2 km asteroid is left with exactly its mass minus that asteroid's mass |

## Left out

- `printInfo` and console output: the `cout` output in `printInfo`, the destructors, the copy constructor and `handleImpact`. It is console I/O only.
- `src/platform_config.h`: it only selects the include path for the JSON header and names the OS at compile time. It has no logic.
- The JSON library itself: a record is the `Json` datatype. Only the failures the core can meet are modelled: a missing key, a wrong type, and a non-object under `at`.
- Records.Elements: iterating over an object is modelled as a failure, whereas the JSON library visits the object's values in key order. A well-formed record holds an array under `close_approach_data`, so the model does not follow that path.
- Asteroids.ApproachEntries: an object under `close_approach_data` is modelled as a failure, whereas the source would iterate over its values as entries. The reason is the one given for `Records.Elements`.
- `std::stod` and `std::sqrt`: they are parameters, not definitions. `stod` accepting only a prefix of its text, and leading whitespace, are not modelled. Every `stod` failure is `invalid_argument("stod")`: the `std::out_of_range` it throws for a text whose value overflows a `double` is not modelled.
- Floating-point behaviour: rounding, overflow, infinities and NaN. This includes a division by zero in gravity or escape velocity (excluded by requiring a positive diameter) and the tolerance-based test expectations (9.807, 11.186, 1973.6 ± 50, more than 1000 megatons).
- The copy constructor: it is the identity on a value. It calls `SpaceBody(other.name, other.diameter, other.mass)` (`src/classes.cpp:105`), so every copy, including the one inside `operator+`, runs the body check again. That check passes on every asteroid the model can build (`Valid`, `CombinePreservesValid`), so the identity is exact only on valid asteroids. The source's copy cannot copy the two reference fields, because they are never declared. Their intended copying is assumed.
- The getters `getID`, `getNasaJplUrl`, `getAbsoluteMagnitude`, `getCloseApproachData`, `getName`, `getDiameter` and `getMass`: they are field selections on the value. Their being `const` holds because nothing can change a value.
- Asteroids.FirstVelocity, Asteroids.FirstMissDistance: the source's `getRelativeVelocityKmPerS` and `getMissDistanceKm` read the first approach. The model's getters are the reference fields instead. The two agree on a constructed asteroid, but not after a merge, which keeps `a`'s list. On the merge test's records the first approach gives 10.0 and 500000, and the reference fields give 22.5 and 4250000 (see Findings).
- The unspecified evaluation order of a base initialiser's arguments: one order is fixed (see above). A record with several faults may report a different one of its errors under another order.
- The planet catalog `src/planets.h`, the data fetcher `src/get_data.h`, the sample JSON files and `main`: these are not part of this model. The integration test `test_integration.cpp` is not modelled either, because its planet comes from the catalog and its record from a sample file.
- Planets.Planet.Valid: it states only the positive diameter. An impact may leave a mass at or below zero, and the source allows that.

## Findings

| source | as written | input that shows it | evidently intended | confidence | as-written member | corrected member |
|---|---|---|---|---|---|---|
| src/classes.cpp:141-153 | `operator+` copies `a` and never updates the inherited `diameter`, so the composite's diameter is `a`'s and `getDiameter()` disagrees with the summed minimum | two valid asteroids with minimum bounds 0.5 and 0.7: the merged diameter is 0.5, while `test_astroid.cpp:222` expects 1.2 | the merged diameter is the summed minimum, `diameter == minDiameterKm` | high (not executed) | Asteroids.CombineAsWritten, Asteroids.CombineAsWrittenBreaksDiameter | Asteroids.Combine, Asteroids.CombinePreservesValid |
| src/classes.cpp:193-207 | `getRelativeVelocityKmPerS` and `getMissDistanceKm` read the first approach, and `operator+` keeps `a`'s list, so on a merged asteroid they report `a`'s first approach, not the summed values | the merge test's records: the getters give 10.0 and 500000, while `test_astroid.cpp:224-225` expects 22.5 and 4250000 | the getters return the reference fields that construction initialises and `operator+` sums | medium (not executed) | Asteroids.GettersAsWrittenAfterMerge, Scenarios.MergedGettersAsWrittenScenario | Asteroids.Combine, Scenarios.OperatorPlusScenario |
