/**
 * Near-Earth asteroids: construction from an orbital-data record, the mass derived from
 * the estimated diameter bounds, the normalised close-approach list, impact energy and
 * the merge of two asteroids.
 *
 * An asteroid is a value: nothing changes one after construction (the merge builds a new
 * one), so a copy is the value itself.
 */
module Asteroids {
  import opened Errors
  import opened Records
  import opened Bodies

  /** Assumed bulk density of an asteroid, kg/m^3. */
  const Density: real := 3000.0
  /** The value of `M_PI`. */
  const Pi: real := 3.14159265358979323846
  const EarthRadiusKm: real := 6371.0
  /** No stored miss distance is below twice the Earth's radius. */
  const MissFloorKm: real := EarthRadiusKm * 2.0
  const JoulesPerMegaton: real := 4184000000000000.0
  /** The merge classifies a composite as hazardous beyond either of these. */
  const HazardDiameterKm: real := 280.0
  const HazardVelocityKmPerS: real := 5.0

  /** The keys of the record, as paths of nested lookups. */
  const NamePath: seq<string> := ["name"]
  const IdPath: seq<string> := ["id"]
  const UrlPath: seq<string> := ["nasa_jpl_url"]
  const MagnitudePath: seq<string> := ["absolute_magnitude_h"]
  const HazardPath: seq<string> := ["is_potentially_hazardous_asteroid"]
  const ApproachesKey: string := "close_approach_data"
  const DiameterKey: string := "estimated_diameter"
  const MinDiameterPath: seq<string> := [DiameterKey, "kilometers", "estimated_diameter_min"]
  const MaxDiameterPath: seq<string> := [DiameterKey, "kilometers", "estimated_diameter_max"]
  const DatePath: seq<string> := ["close_approach_date"]
  const VelocityPath: seq<string> := ["relative_velocity", "kilometers_per_second"]
  const MissPath: seq<string> := ["miss_distance", "kilometers"]

  /** The top-level keys the constructor reads. */
  const RequiredKeys: set<string> :=
    {"name", DiameterKey, "id", "nasa_jpl_url", "absolute_magnitude_h",
     "is_potentially_hazardous_asteroid", ApproachesKey}

  /** One observed pass near the Earth: a date as given, a velocity in km/s, a miss distance in km. */
  datatype CloseApproach = CloseApproach(date: string, relativeVelocity: real, missDistance: real)

  /**
   * An asteroid: the shared body fields (its diameter is the minimum estimate), the record's
   * identity and classification fields, the close approaches in record order, and the single
   * reference velocity and miss distance used by impact energy and by the merge.
   */
  datatype Asteroid = Asteroid(
    body: SpaceBody,
    id: string,
    nasaJplUrl: string,
    absoluteMagnitude: real,
    minDiameterKm: real,
    maxDiameterKm: real,
    isDangerous: bool,
    closeApproaches: seq<CloseApproach>,
    relativeVelocityKmPerS: real,
    missDistanceKm: real)

  /**
   * What every asteroid built from a record satisfies, and every merge keeps: the body is
   * valid, its diameter is the minimum estimate, no miss distance is below the floor.
   */
  predicate Valid(a: Asteroid) {
    ValidBody(a.body) &&
    a.body.diameter == a.minDiameterKm &&
    forall k :: 0 <= k < |a.closeApproaches| ==> a.closeApproaches[k].missDistance >= MissFloorKm
  }

  // ---------------------------------------------------------------- mass

  /** Volume of a sphere of the given radius. */
  function SphereVolume(radius: real): (v: real)
    ensures radius >= 0.0 ==> v >= 0.0
    ensures radius > 0.0 ==> v > 0.0
  {
    (4.0 / 3.0) * Pi * Cube(radius)
  }

  /**
   * `calculateMass` on the two diameter estimates (km): the density times the average of
   * the volumes of the two spheres, not the volume of the average sphere.
   */
  function MassFromDiameters(minKm: real, maxKm: real): (m: real)
    ensures 0.0 <= minKm && 0.0 <= maxKm ==> m >= 0.0
    ensures 0.0 <= minKm && 0.0 <= maxKm && (0.0 < minKm || 0.0 < maxKm) ==> m > 0.0
  {
    var volumeMin := SphereVolume(RadiusMeters(minKm));
    var volumeMax := SphereVolume(RadiusMeters(maxKm));
    Density * ((volumeMin + volumeMax) / 2.0)
  }

  /**
   * The static `calculateMass(record)`: it reads only the two diameter estimates, and fails
   * when either is missing or not a number.
   */
  function CalculateMass(j: Json): (r: Result<real>)
    ensures r.Ok? <==> NumberAt(j, MinDiameterPath).Ok? && NumberAt(j, MaxDiameterPath).Ok?
    ensures r.Ok? ==>
              r.value == MassFromDiameters(NumberAt(j, MinDiameterPath).value, NumberAt(j, MaxDiameterPath).value)
    ensures NumberAt(j, MinDiameterPath).Err? ==> r == Err(NumberAt(j, MinDiameterPath).error)
    ensures NumberAt(j, MinDiameterPath).Ok? && NumberAt(j, MaxDiameterPath).Err? ==>
              r == Err(NumberAt(j, MaxDiameterPath).error)
  {
    var minKm :- NumberAt(j, MinDiameterPath);
    var maxKm :- NumberAt(j, MaxDiameterPath);
    Ok(MassFromDiameters(minKm, maxKm))
  }

  /** Swapping the two estimates does not change the mass. */
  lemma MassSymmetric(minKm: real, maxKm: real)
    ensures MassFromDiameters(minKm, maxKm) == MassFromDiameters(maxKm, minKm)
  {
  }

  /** The cube of a product is the product of the cubes. */
  lemma CubeOfProduct(x: real, y: real)
    ensures Cube(x * y) == Cube(x) * Cube(y)
  {
    assert Sq(x * y) == Sq(x) * Sq(y);
  }

  /** With equal estimates, the mass grows as the cube of the diameter. */
  lemma MassScalesAsCube(d: real, k: real)
    ensures MassFromDiameters(k * d, k * d) == Cube(k) * MassFromDiameters(d, d)
  {
    assert RadiusMeters(k * d) == k * RadiusMeters(d);
    CubeOfProduct(k, RadiusMeters(d));
  }

  /** The mean of two cubes exceeds the cube of the mean by three eighths of `(a + b)(a - b)^2`. */
  lemma CubeConvexity(a: real, b: real)
    ensures (Cube(a) + Cube(b)) / 2.0 - Cube((a + b) / 2.0) == 3.0 * ((a + b) * Sq(a - b)) / 8.0
  {
  }

  /**
   * Averaging the two volumes never gives less than the volume of the average diameter, and
   * gives the same only when the estimates agree.
   */
  lemma MassAtLeastMeanDiameterMass(minKm: real, maxKm: real)
    requires 0.0 <= minKm && 0.0 <= maxKm
    ensures MassFromDiameters(minKm, maxKm) >= MassFromDiameters((minKm + maxKm) / 2.0, (minKm + maxKm) / 2.0)
    ensures minKm != maxKm ==>
              MassFromDiameters(minKm, maxKm) > MassFromDiameters((minKm + maxKm) / 2.0, (minKm + maxKm) / 2.0)
  {
    var a, b := RadiusMeters(minKm), RadiusMeters(maxKm);
    assert RadiusMeters((minKm + maxKm) / 2.0) == (a + b) / 2.0;
    CubeConvexity(a, b);
    NonNegativeProduct(a + b, Sq(a - b));
    if minKm != maxKm {
      PositiveProduct(a + b, Sq(a - b));
    }
  }

  // ---------------------------------------------------------------- close approaches

  /** The miss distance stored for a raw one: half of it, but never below `MissFloorKm`. */
  function NormalizeMissDistance(rawKm: real): (d: real)
    ensures d >= MissFloorKm && d >= rawKm / 2.0
    ensures d == rawKm / 2.0 || d == MissFloorKm
  {
    if rawKm / 2.0 >= MissFloorKm then rawKm / 2.0 else MissFloorKm
  }

  /** `stod` of the string found at `path`. */
  function NumericTextAt(e: Json, path: seq<string>, parseNum: NumParser): (r: Result<real>)
    requires path != []
    ensures r.Ok? <==> StringAt(e, path).Ok? && parseNum(StringAt(e, path).value).Some?
    ensures r.Ok? ==> r.value == parseNum(StringAt(e, path).value).value
  {
    var text :- StringAt(e, path);
    ParseNumber(text, parseNum)
  }

  /**
   * One entry of `close_approach_data`: the date and velocity are copied, the miss distance
   * normalised; the date is read first, then the velocity, then the miss distance.
   */
  function ParseApproach(e: Json, parseNum: NumParser): (r: Result<CloseApproach>)
    ensures r.Ok? <==>
              StringAt(e, DatePath).Ok? &&
              NumericTextAt(e, VelocityPath, parseNum).Ok? &&
              NumericTextAt(e, MissPath, parseNum).Ok?
    ensures r.Ok? ==>
              r.value.date == StringAt(e, DatePath).value &&
              r.value.relativeVelocity == NumericTextAt(e, VelocityPath, parseNum).value &&
              r.value.missDistance == NormalizeMissDistance(NumericTextAt(e, MissPath, parseNum).value)
    ensures r.Ok? ==> r.value.missDistance >= MissFloorKm
  {
    var date :- StringAt(e, DatePath);
    var velocity :- NumericTextAt(e, VelocityPath, parseNum);
    var rawMiss :- NumericTextAt(e, MissPath, parseNum);
    Ok(CloseApproach(date, velocity, NormalizeMissDistance(rawMiss)))
  }

  /**
   * The list the constructor's loop appends to, entry by entry in record order; the first
   * entry that fails stops construction with its error.
   */
  function ApproachList(entries: seq<Json>, parseNum: NumParser): (r: Result<seq<CloseApproach>>)
    ensures r.Ok? <==> forall k :: 0 <= k < |entries| ==> ParseApproach(entries[k], parseNum).Ok?
    ensures r.Ok? ==>
              |r.value| == |entries| &&
              forall k :: 0 <= k < |entries| ==> ParseApproach(entries[k], parseNum) == Ok(r.value[k])
    decreases |entries|
  {
    if entries == [] then Ok([])
    else
      var front :- ApproachList(entries[..|entries| - 1], parseNum);
      var last :- ParseApproach(entries[|entries| - 1], parseNum);
      Ok(front + [last])
  }

  /** Once a prefix of the entries fails, every longer prefix fails with the same error. */
  lemma {:induction false} ApproachListFailureSticks(entries: seq<Json>, i: nat, n: nat, parseNum: NumParser)
    requires i <= n <= |entries|
    requires ApproachList(entries[..i], parseNum).Err?
    ensures ApproachList(entries[..n], parseNum) == ApproachList(entries[..i], parseNum)
    decreases n - i
  {
    if i < n {
      assert entries[..i + 1][..i] == entries[..i];
      ApproachListFailureSticks(entries, i + 1, n, parseNum);
    }
  }

  /** A failing list reports the error of its first failing entry. */
  lemma {:induction false} ApproachListFirstFailure(entries: seq<Json>, k: nat, parseNum: NumParser)
    requires k < |entries|
    requires forall i :: 0 <= i < k ==> ParseApproach(entries[i], parseNum).Ok?
    requires ParseApproach(entries[k], parseNum).Err?
    ensures ApproachList(entries, parseNum) == Err(ParseApproach(entries[k], parseNum).error)
  {
    var prefix := entries[..k + 1];
    assert prefix[..k] == entries[..k];
    assert ApproachList(entries[..k], parseNum).Ok?;
    assert ApproachList(prefix, parseNum) == Err(ParseApproach(entries[k], parseNum).error);
    ApproachListFailureSticks(entries, k + 1, |entries|, parseNum);
    assert entries[..|entries|] == entries;
  }

  /** The entries of `close_approach_data`, in the order the constructor visits them. */
  function ApproachEntries(j: Json): (r: Result<seq<Json>>)
    ensures r.Ok? <==> At(j, ApproachesKey).Ok? && !At(j, ApproachesKey).value.Object?
    ensures At(j, ApproachesKey).Err? ==> r == Err(At(j, ApproachesKey).error)
    ensures r.Ok? && At(j, ApproachesKey).value.Array? ==> r.value == At(j, ApproachesKey).value.items
    ensures r.Ok? && At(j, ApproachesKey).value.Null? ==> r.value == []
    ensures r.Ok? && !At(j, ApproachesKey).value.Array? && !At(j, ApproachesKey).value.Null? ==>
              r.value == [At(j, ApproachesKey).value]
  {
    var data :- At(j, ApproachesKey);
    Elements(data, ApproachesKey)
  }

  /** `getRelativeVelocityKmPerS` on a freshly built list: the first approach's velocity, or 0. */
  function FirstVelocity(approaches: seq<CloseApproach>): (v: real)
    ensures approaches == [] ==> v == 0.0
    ensures approaches != [] ==> v == approaches[0].relativeVelocity
  {
    if approaches == [] then 0.0 else approaches[0].relativeVelocity
  }

  /** `getMissDistanceKm` on a freshly built list: the first approach's miss distance, or 0. */
  function FirstMissDistance(approaches: seq<CloseApproach>): (d: real)
    ensures approaches == [] ==> d == 0.0
    ensures approaches != [] ==> d == approaches[0].missDistance
  {
    if approaches == [] then 0.0 else approaches[0].missDistance
  }

  // ---------------------------------------------------------------- construction

  /**
   * The constructor from a record, all or nothing. The base is initialised first (name,
   * minimum diameter and mass, taken left to right, then the body check), then the members
   * in declaration order (id, URL, magnitude, hazard flag), then the body runs (the two
   * diameter bounds again, then the approach entries).
   */
  function ParseAsteroid(j: Json, parseNum: NumParser): (r: Result<Asteroid>)
    ensures r.Ok? ==> Valid(r.value)
    ensures r.Ok? ==>
              StringAt(j, NamePath).Ok? && NumberAt(j, MinDiameterPath).Ok? && NumberAt(j, MaxDiameterPath).Ok? &&
              StringAt(j, IdPath).Ok? && StringAt(j, UrlPath).Ok? && NumberAt(j, MagnitudePath).Ok? &&
              BoolAt(j, HazardPath).Ok?
    ensures r.Ok? ==>
              var a := r.value;
              a.body.name == StringAt(j, NamePath).value &&
              a.minDiameterKm == NumberAt(j, MinDiameterPath).value &&
              a.maxDiameterKm == NumberAt(j, MaxDiameterPath).value &&
              a.body.mass == MassFromDiameters(a.minDiameterKm, a.maxDiameterKm) &&
              a.id == StringAt(j, IdPath).value &&
              a.nasaJplUrl == StringAt(j, UrlPath).value &&
              a.absoluteMagnitude == NumberAt(j, MagnitudePath).value &&
              a.isDangerous == BoolAt(j, HazardPath).value &&
              ApproachEntries(j).Ok? &&
              ApproachList(ApproachEntries(j).value, parseNum) == Ok(a.closeApproaches) &&
              a.relativeVelocityKmPerS == FirstVelocity(a.closeApproaches) &&
              a.missDistanceKm == FirstMissDistance(a.closeApproaches)
  {
    var name :- StringAt(j, NamePath);
    var minKm :- NumberAt(j, MinDiameterPath);
    var mass :- CalculateMass(j);
    var body :- MakeSpaceBody(name, minKm, mass);
    var id :- StringAt(j, IdPath);
    var url :- StringAt(j, UrlPath);
    var magnitude :- NumberAt(j, MagnitudePath);
    var hazardous :- BoolAt(j, HazardPath);
    // the body reads both estimates again; CalculateMass has already read them successfully
    var maxKm := NumberAt(j, MaxDiameterPath).value;
    var entries :- ApproachEntries(j);
    var approaches :- ApproachList(entries, parseNum);
    Ok(Asteroid(body, id, url, magnitude, minKm, maxKm, hazardous, approaches,
                FirstVelocity(approaches), FirstMissDistance(approaches)))
  }

  /** Every field the constructor reads is present with the right type, every entry converts, and the body check passes. */
  predicate WellFormedRecord(j: Json, parseNum: NumParser) {
    StringAt(j, NamePath).Ok? &&
    NumberAt(j, MinDiameterPath).Ok? &&
    NumberAt(j, MaxDiameterPath).Ok? &&
    NumberAt(j, MinDiameterPath).value > 0.0 &&
    MassFromDiameters(NumberAt(j, MinDiameterPath).value, NumberAt(j, MaxDiameterPath).value) > 0.0 &&
    StringAt(j, IdPath).Ok? &&
    StringAt(j, UrlPath).Ok? &&
    NumberAt(j, MagnitudePath).Ok? &&
    BoolAt(j, HazardPath).Ok? &&
    ApproachEntries(j).Ok? &&
    forall k :: 0 <= k < |ApproachEntries(j).value| ==> ParseApproach(ApproachEntries(j).value[k], parseNum).Ok?
  }

  /** Construction succeeds exactly on well-formed records. */
  lemma ParseAsteroidSucceedsIff(j: Json, parseNum: NumParser)
    ensures ParseAsteroid(j, parseNum).Ok? <==> WellFormedRecord(j, parseNum)
  {
    if WellFormedRecord(j, parseNum) {
      var minKm := NumberAt(j, MinDiameterPath).value;
      var mass := CalculateMass(j).value;
      assert MakeSpaceBody(StringAt(j, NamePath).value, minKm, mass).Ok?;
    }
  }

  /** A record lacking any required top-level key builds no asteroid. */
  lemma MissingKeyFails(j: Json, parseNum: NumParser, key: string)
    requires j.Object? && key in RequiredKeys && key !in j.fields
    ensures ParseAsteroid(j, parseNum).Err?
  {
    ParseAsteroidSucceedsIff(j, parseNum);
    if key == DiameterKey {
      AtPathMissingKey(j, MinDiameterPath, 0);
    }
  }

  /** A record without `name` fails on the first read, with `out_of_range` for `name`. */
  lemma MissingNameReported(j: Json, parseNum: NumParser)
    requires j.Object? && NamePath[0] !in j.fields
    ensures ParseAsteroid(j, parseNum) == Err(MissingField(NamePath[0]))
  {
    assert StringAt(j, NamePath) == Err(MissingField(NamePath[0]));
  }

  /** A record with a name but without `estimated_diameter` fails with `out_of_range` for that key. */
  lemma MissingDiameterReported(j: Json, parseNum: NumParser)
    requires j.Object? && DiameterKey !in j.fields
    requires StringAt(j, NamePath).Ok?
    ensures ParseAsteroid(j, parseNum) == Err(MissingField(DiameterKey))
  {
    assert NumberAt(j, MinDiameterPath) == Err(MissingField(DiameterKey));
  }

  /**
   * A record whose body check passes but which has no `id` fails with `out_of_range` for
   * `id`: it is the first member read after the base.
   */
  lemma MissingIdReported(j: Json, parseNum: NumParser)
    requires j.Object? && IdPath[0] !in j.fields
    requires StringAt(j, NamePath).Ok? && CalculateMass(j).Ok?
    requires MakeSpaceBody(StringAt(j, NamePath).value, NumberAt(j, MinDiameterPath).value, CalculateMass(j).value).Ok?
    ensures ParseAsteroid(j, parseNum) == Err(MissingField(IdPath[0]))
  {
    assert StringAt(j, IdPath) == Err(MissingField(IdPath[0]));
  }

  /**
   * A record in which a key along either diameter path is missing (`kilometers` under
   * `estimated_diameter`, or either bound under `kilometers`) builds no asteroid.
   */
  lemma MissingDiameterFieldFails(j: Json, parseNum: NumParser, path: seq<string>, i: nat)
    requires path == MinDiameterPath || path == MaxDiameterPath
    requires i < |path|
    requires AtPath(j, path[..i]).Ok? && AtPath(j, path[..i]).value.Object?
    requires path[i] !in AtPath(j, path[..i]).value.fields
    ensures ParseAsteroid(j, parseNum).Err?
  {
    ParseAsteroidSucceedsIff(j, parseNum);
    AtPathMissingKey(j, path, i);
  }

  /**
   * A record with an approach entry in which a key along the date, velocity or miss
   * distance path is missing (the field itself, or the `kilometers_per_second` or
   * `kilometers` below it) builds no asteroid.
   */
  lemma MissingApproachFieldFails(j: Json, parseNum: NumParser, k: nat, path: seq<string>, i: nat)
    requires ApproachEntries(j).Ok? && k < |ApproachEntries(j).value|
    requires path == DatePath || path == VelocityPath || path == MissPath
    requires i < |path|
    requires var e := ApproachEntries(j).value[k];
             AtPath(e, path[..i]).Ok? && AtPath(e, path[..i]).value.Object? &&
             path[i] !in AtPath(e, path[..i]).value.fields
    ensures ParseAsteroid(j, parseNum).Err?
  {
    ParseAsteroidSucceedsIff(j, parseNum);
    AtPathMissingKey(ApproachEntries(j).value[k], path, i);
  }

  /**
   * The approach list of a built asteroid has one element per entry, in record order, with
   * the date and velocity copied and the miss distance normalised to at least the floor.
   */
  lemma ParsedApproachesNormalized(j: Json, parseNum: NumParser)
    requires ParseAsteroid(j, parseNum).Ok?
    ensures var a := ParseAsteroid(j, parseNum).value;
            var entries := ApproachEntries(j).value;
            |a.closeApproaches| == |entries| &&
            forall k :: 0 <= k < |entries| ==>
              a.closeApproaches[k].date == StringAt(entries[k], DatePath).value &&
              a.closeApproaches[k].relativeVelocity == NumericTextAt(entries[k], VelocityPath, parseNum).value &&
              a.closeApproaches[k].missDistance == NormalizeMissDistance(NumericTextAt(entries[k], MissPath, parseNum).value) &&
              a.closeApproaches[k].missDistance >= MissFloorKm
  {
    var a := ParseAsteroid(j, parseNum).value;
    var entries := ApproachEntries(j).value;
    forall k | 0 <= k < |entries|
      ensures a.closeApproaches[k].date == StringAt(entries[k], DatePath).value
      ensures a.closeApproaches[k].relativeVelocity == NumericTextAt(entries[k], VelocityPath, parseNum).value
      ensures a.closeApproaches[k].missDistance == NormalizeMissDistance(NumericTextAt(entries[k], MissPath, parseNum).value)
      ensures a.closeApproaches[k].missDistance >= MissFloorKm
    {
      assert ParseApproach(entries[k], parseNum) == Ok(a.closeApproaches[k]);
    }
  }

  /**
   * The reference velocity and miss distance of a built asteroid are those of its first
   * approach entry, the miss distance normalised, or 0.0 for a record without entries.
   */
  lemma ReferenceValuesFromFirstEntry(j: Json, parseNum: NumParser)
    requires ParseAsteroid(j, parseNum).Ok?
    ensures var a, entries := ParseAsteroid(j, parseNum).value, ApproachEntries(j).value;
            (entries == [] ==> a.relativeVelocityKmPerS == 0.0 && a.missDistanceKm == 0.0) &&
            (entries != [] ==>
               a.relativeVelocityKmPerS == NumericTextAt(entries[0], VelocityPath, parseNum).value &&
               a.missDistanceKm == NormalizeMissDistance(NumericTextAt(entries[0], MissPath, parseNum).value))
  {
    ParsedApproachesNormalized(j, parseNum);
  }

  /**
   * The imperative constructor: the same reads as the initialiser list and body, with the
   * approach list built by appending one normalised entry at a time.
   */
  method FromRecord(j: Json, parseNum: NumParser) returns (r: Result<Asteroid>)
    ensures r == ParseAsteroid(j, parseNum)
  {
    var name :- StringAt(j, NamePath);
    var minKm :- NumberAt(j, MinDiameterPath);
    var mass :- CalculateMass(j);
    var body :- MakeSpaceBody(name, minKm, mass);
    var id :- StringAt(j, IdPath);
    var url :- StringAt(j, UrlPath);
    var magnitude :- NumberAt(j, MagnitudePath);
    var hazardous :- BoolAt(j, HazardPath);
    var maxKm := NumberAt(j, MaxDiameterPath).value;
    var entries :- ApproachEntries(j);
    var approaches: seq<CloseApproach> := [];
    var i := 0;
    while i < |entries|
      invariant 0 <= i <= |entries|
      invariant ApproachList(entries[..i], parseNum) == Ok(approaches)
    {
      var step := ParseApproach(entries[i], parseNum);
      assert entries[..i + 1][..i] == entries[..i];
      if step.Err? {
        ApproachListFailureSticks(entries, i + 1, |entries|, parseNum);
        assert entries[..|entries|] == entries;
        return Err(step.error);
      }
      approaches := approaches + [step.value];
      i := i + 1;
    }
    assert entries[..|entries|] == entries;
    r := Ok(Asteroid(body, id, url, magnitude, minKm, maxKm, hazardous, approaches,
                     FirstVelocity(approaches), FirstMissDistance(approaches)));
  }

  // ---------------------------------------------------------------- impact energy

  /** Kinetic energy at the reference velocity, in megatons of TNT. */
  function ImpactEnergy(a: Asteroid): (e: real)
    ensures a.body.mass >= 0.0 ==> e >= 0.0
    ensures a.relativeVelocityKmPerS == 0.0 ==> e == 0.0
    ensures a.body.mass > 0.0 && a.relativeVelocityKmPerS != 0.0 ==> e > 0.0
  {
    var velocity := a.relativeVelocityKmPerS * 1000.0;
    ProductSigns(a.body.mass, Sq(velocity));
    (0.5 * a.body.mass * Sq(velocity)) / JoulesPerMegaton
  }

  /** Scaling the reference velocity by `k` scales the energy by `k^2`. */
  lemma ImpactEnergyQuadratic(a: Asteroid, k: real)
    ensures ImpactEnergy(a.(relativeVelocityKmPerS := k * a.relativeVelocityKmPerS)) == Sq(k) * ImpactEnergy(a)
  {
    var v := a.relativeVelocityKmPerS * 1000.0;
    assert (k * a.relativeVelocityKmPerS) * 1000.0 == k * v;
    assert Sq(k * v) == Sq(k) * Sq(v);
  }

  /** The direction of the reference velocity does not matter. */
  lemma ImpactEnergyEven(a: Asteroid)
    ensures ImpactEnergy(a.(relativeVelocityKmPerS := -a.relativeVelocityKmPerS)) == ImpactEnergy(a)
  {
    var v := a.relativeVelocityKmPerS * 1000.0;
    assert (-a.relativeVelocityKmPerS) * 1000.0 == -v;
    assert Sq(-v) == Sq(v);
  }

  // ---------------------------------------------------------------- merge

  /**
   * `a + b`: a new asteroid with the names joined by " & ", the diameter estimates, mass and
   * reference values summed, the hazard flag recomputed from the sums, and every other
   * field from `a`. The diameter is the summed minimum, as the Valid invariant demands.
   */
  function Combine(a: Asteroid, b: Asteroid): (c: Asteroid)
    ensures c.body.name == a.body.name + " & " + b.body.name
    ensures c.minDiameterKm == a.minDiameterKm + b.minDiameterKm
    ensures c.maxDiameterKm == a.maxDiameterKm + b.maxDiameterKm
    ensures c.body.diameter == c.minDiameterKm
    ensures c.body.mass == a.body.mass + b.body.mass
    ensures c.relativeVelocityKmPerS == a.relativeVelocityKmPerS + b.relativeVelocityKmPerS
    ensures c.missDistanceKm == a.missDistanceKm + b.missDistanceKm
    ensures c.isDangerous <==> c.minDiameterKm > HazardDiameterKm || c.relativeVelocityKmPerS > HazardVelocityKmPerS
    ensures c.id == a.id && c.nasaJplUrl == a.nasaJplUrl && c.absoluteMagnitude == a.absoluteMagnitude
    ensures c.closeApproaches == a.closeApproaches
  {
    var combined := a.(
      body := SpaceBody(a.body.name + " & " + b.body.name,
                        a.minDiameterKm + b.minDiameterKm,
                        a.body.mass + b.body.mass),
      minDiameterKm := a.minDiameterKm + b.minDiameterKm,
      maxDiameterKm := a.maxDiameterKm + b.maxDiameterKm,
      relativeVelocityKmPerS := a.relativeVelocityKmPerS + b.relativeVelocityKmPerS,
      missDistanceKm := a.missDistanceKm + b.missDistanceKm);
    combined.(isDangerous := combined.minDiameterKm > HazardDiameterKm
                             || combined.relativeVelocityKmPerS > HazardVelocityKmPerS)
  }

  /**
   * `operator+` step by step: copy `a`, then update the name, the two estimates, the mass
   * and the reference values, keep the diameter at the minimum estimate, and recompute the
   * hazard flag from the updated values.
   */
  method Plus(a: Asteroid, b: Asteroid) returns (combined: Asteroid)
    ensures combined == Combine(a, b)
  {
    combined := a;
    combined := combined.(body := combined.body.(name := a.body.name + " & " + b.body.name));
    combined := combined.(minDiameterKm := combined.minDiameterKm + b.minDiameterKm);
    combined := combined.(maxDiameterKm := combined.maxDiameterKm + b.maxDiameterKm);
    combined := combined.(body := combined.body.(mass := combined.body.mass + b.body.mass));
    combined := combined.(relativeVelocityKmPerS := combined.relativeVelocityKmPerS + b.relativeVelocityKmPerS);
    combined := combined.(missDistanceKm := combined.missDistanceKm + b.missDistanceKm);
    combined := combined.(body := combined.body.(diameter := combined.minDiameterKm));
    combined := combined.(isDangerous := combined.minDiameterKm > HazardDiameterKm
                                         || combined.relativeVelocityKmPerS > HazardVelocityKmPerS);
  }

  /**
   * The two getters as written read the first approach of the list, and the merge keeps
   * `a`'s list: on a merged asteroid they report `a`'s first approach. When `a`'s reference
   * values are its getters' and `b`'s reference velocity is not zero, the merged getter and the
   * merged reference velocity differ.
   */
  lemma GettersAsWrittenAfterMerge(a: Asteroid, b: Asteroid)
    ensures FirstVelocity(Combine(a, b).closeApproaches) == FirstVelocity(a.closeApproaches)
    ensures FirstMissDistance(Combine(a, b).closeApproaches) == FirstMissDistance(a.closeApproaches)
    ensures a.relativeVelocityKmPerS == FirstVelocity(a.closeApproaches) && b.relativeVelocityKmPerS != 0.0 ==>
              FirstVelocity(Combine(a, b).closeApproaches) != Combine(a, b).relativeVelocityKmPerS
  {
  }

  /** Swapping the operands changes only the name order and the fields taken from `a`. */
  lemma CombineSumsCommute(a: Asteroid, b: Asteroid)
    ensures Combine(a, b).body.mass == Combine(b, a).body.mass
    ensures Combine(a, b).body.diameter == Combine(b, a).body.diameter
    ensures Combine(a, b).maxDiameterKm == Combine(b, a).maxDiameterKm
    ensures Combine(a, b).relativeVelocityKmPerS == Combine(b, a).relativeVelocityKmPerS
    ensures Combine(a, b).missDistanceKm == Combine(b, a).missDistanceKm
    ensures Combine(a, b).isDangerous == Combine(b, a).isDangerous
  {
  }

  /** Merging two valid asteroids gives a valid one. */
  lemma CombinePreservesValid(a: Asteroid, b: Asteroid)
    requires Valid(a) && Valid(b)
    ensures Valid(Combine(a, b))
  {
  }

  /** The merged hazard flag ignores both operands' own flags. */
  lemma CombineIgnoresHazardFlags(a: Asteroid, b: Asteroid, fa: bool, fb: bool)
    ensures Combine(a.(isDangerous := fa), b.(isDangerous := fb)) == Combine(a, b)
  {
  }

  /** Merging is associative: `(a + b) + c` and `a + (b + c)` are the same asteroid. */
  lemma CombineAssociative(a: Asteroid, b: Asteroid, c: Asteroid)
    ensures Combine(Combine(a, b), c) == Combine(a, Combine(b, c))
  {
    var sep := " & ";
    assert (a.body.name + sep + b.body.name) + sep + c.body.name
        == a.body.name + sep + (b.body.name + sep + c.body.name);
    assert (a.minDiameterKm + b.minDiameterKm) + c.minDiameterKm
        == a.minDiameterKm + (b.minDiameterKm + c.minDiameterKm);
  }

  /**
   * `operator+` as written: the inherited `diameter` is never updated, so the composite
   * keeps `a`'s diameter and not the summed minimum.
   */
  function CombineAsWritten(a: Asteroid, b: Asteroid): (c: Asteroid)
    ensures c.body.diameter == a.body.diameter
    ensures c == Combine(a, b).(body := Combine(a, b).body.(diameter := a.body.diameter))
  {
    var combined := Combine(a, b);
    combined.(body := combined.body.(diameter := a.body.diameter))
  }

  /** As written, merging two valid asteroids breaks `diameter == minDiameterKm`. */
  lemma CombineAsWrittenBreaksDiameter(a: Asteroid, b: Asteroid)
    requires Valid(a) && Valid(b)
    ensures !Valid(CombineAsWritten(a, b))
    ensures CombineAsWritten(a, b).body.diameter < CombineAsWritten(a, b).minDiameterKm
  {
  }
}
