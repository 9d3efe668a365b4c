/**
 * The scenarios of the repository's unit tests, stated over the model: concrete records,
 * what construction builds from them, and what the merge, the energy and an impact give.
 * `std::stod` stays a parameter; each scenario only says what it returns on the texts used.
 */
module Scenarios {
  import opened Errors
  import opened Records
  import opened Bodies
  import opened Asteroids
  import opened Planets

  /** One `close_approach_data` entry. */
  function ApproachRecord(date: string, velocity: string, miss: string): Json {
    Object(map[
      "close_approach_date" := Str(date),
      "relative_velocity" := Object(map["kilometers_per_second" := Str(velocity)]),
      "miss_distance" := Object(map["kilometers" := Str(miss)]),
      "orbiting_body" := Str("Earth")])
  }

  /** The estimated diameter object with its two bounds in km. */
  function DiameterRecord(minKm: real, maxKm: real): Json {
    Object(map["kilometers" := Object(map[
      "estimated_diameter_min" := Number(minKm),
      "estimated_diameter_max" := Number(maxKm)])])
  }

  /** A complete asteroid record as the tests write them. */
  function AsteroidRecord(id: string, name: string, magnitude: real, minKm: real, maxKm: real,
                          hazardous: bool, approaches: seq<Json>): Json {
    Object(map[
      "id" := Str(id),
      "neo_reference_id" := Str(id),
      "name" := Str(name),
      "nasa_jpl_url" := Str("https://ssd.jpl.nasa.gov/tools/sbdb_lookup.html#/?sstr=" + id),
      "absolute_magnitude_h" := Number(magnitude),
      "estimated_diameter" := DiameterRecord(minKm, maxKm),
      "is_potentially_hazardous_asteroid" := Bool(hazardous),
      "close_approach_data" := Array(approaches)])
  }

  /** An entry written as the tests write them converts to its date, velocity and normalised miss distance. */
  lemma ParseApproachRecord(date: string, velocity: string, miss: string, parseNum: NumParser)
    requires parseNum(velocity).Some? && parseNum(miss).Some?
    ensures ParseApproach(ApproachRecord(date, velocity, miss), parseNum)
            == Ok(CloseApproach(date, parseNum(velocity).value, NormalizeMissDistance(parseNum(miss).value)))
  {
    var e := ApproachRecord(date, velocity, miss);
    AtPathOne(e, "close_approach_date");
    AtPathTwo(e, "relative_velocity", "kilometers_per_second");
    AtPathTwo(e, "miss_distance", "kilometers");
  }

  /** Every read the constructor makes on a record written as the tests write them yields the value written. */
  lemma AsteroidRecordReads(id: string, name: string, magnitude: real, minKm: real, maxKm: real,
                            hazardous: bool, approaches: seq<Json>)
    ensures var j := AsteroidRecord(id, name, magnitude, minKm, maxKm, hazardous, approaches);
            StringAt(j, NamePath) == Ok(name) &&
            StringAt(j, IdPath) == Ok(id) &&
            StringAt(j, UrlPath) == Ok("https://ssd.jpl.nasa.gov/tools/sbdb_lookup.html#/?sstr=" + id) &&
            NumberAt(j, MagnitudePath) == Ok(magnitude) &&
            BoolAt(j, HazardPath) == Ok(hazardous) &&
            NumberAt(j, MinDiameterPath) == Ok(minKm) &&
            NumberAt(j, MaxDiameterPath) == Ok(maxKm) &&
            CalculateMass(j) == Ok(MassFromDiameters(minKm, maxKm)) &&
            ApproachEntries(j) == Ok(approaches)
  {
    var j := AsteroidRecord(id, name, magnitude, minKm, maxKm, hazardous, approaches);
    assert StringAt(j, NamePath) == Ok(name) by { AtPathOne(j, "name"); }
    assert StringAt(j, IdPath) == Ok(id) by { AtPathOne(j, "id"); }
    assert StringAt(j, UrlPath) == Ok("https://ssd.jpl.nasa.gov/tools/sbdb_lookup.html#/?sstr=" + id) by {
      AtPathOne(j, "nasa_jpl_url");
    }
    assert NumberAt(j, MagnitudePath) == Ok(magnitude) by { AtPathOne(j, "absolute_magnitude_h"); }
    assert BoolAt(j, HazardPath) == Ok(hazardous) by { AtPathOne(j, "is_potentially_hazardous_asteroid"); }
    var d := j.fields["estimated_diameter"];
    assert NumberAt(j, MinDiameterPath) == Ok(minKm) by {
      AtPathThree(j, "estimated_diameter", "kilometers", "estimated_diameter_min");
      AtPathTwo(d, "kilometers", "estimated_diameter_min");
    }
    assert NumberAt(j, MaxDiameterPath) == Ok(maxKm) by {
      AtPathThree(j, "estimated_diameter", "kilometers", "estimated_diameter_max");
      AtPathTwo(d, "kilometers", "estimated_diameter_max");
    }
    assert ApproachEntries(j) == Ok(approaches);
  }

  /**
   * A record written as the tests write them, with a positive minimum, a non-negative
   * maximum and entries that all convert, builds the asteroid holding exactly its values.
   */
  lemma ParseAsteroidRecord(id: string, name: string, magnitude: real, minKm: real, maxKm: real,
                            hazardous: bool, approaches: seq<Json>, parseNum: NumParser)
    requires minKm > 0.0 && maxKm >= 0.0
    requires ApproachList(approaches, parseNum).Ok?
    ensures var list := ApproachList(approaches, parseNum).value;
            ParseAsteroid(AsteroidRecord(id, name, magnitude, minKm, maxKm, hazardous, approaches), parseNum)
            == Ok(Asteroid(SpaceBody(name, minKm, MassFromDiameters(minKm, maxKm)), id,
                           "https://ssd.jpl.nasa.gov/tools/sbdb_lookup.html#/?sstr=" + id,
                           magnitude, minKm, maxKm, hazardous, list,
                           FirstVelocity(list), FirstMissDistance(list)))
  {
    AsteroidRecordReads(id, name, magnitude, minKm, maxKm, hazardous, approaches);
    assert MakeSpaceBody(name, minKm, MassFromDiameters(minKm, maxKm)).Ok?;
  }

  /** A list of one entry converts to the list of its one approach. */
  lemma OneApproachList(e: Json, parseNum: NumParser)
    requires ParseApproach(e, parseNum).Ok?
    ensures ApproachList([e], parseNum) == Ok([ParseApproach(e, parseNum).value])
  {
    var r := ApproachList([e], parseNum);
    assert [e][0] == e;
    assert r.Ok? && |r.value| == 1;
    assert r.value == [r.value[0]];
  }

  /** A list of two entries converts to the list of their two approaches, in order. */
  lemma TwoApproachList(e0: Json, e1: Json, parseNum: NumParser)
    requires ParseApproach(e0, parseNum).Ok? && ParseApproach(e1, parseNum).Ok?
    ensures ApproachList([e0, e1], parseNum)
            == Ok([ParseApproach(e0, parseNum).value, ParseApproach(e1, parseNum).value])
  {
    var r := ApproachList([e0, e1], parseNum);
    assert [e0, e1][0] == e0 && [e0, e1][1] == e1;
    assert r.Ok? && |r.value| == 2;
    assert r.value == [r.value[0], r.value[1]];
  }

  function RecordOne(): Json {
    AsteroidRecord("11111", "AsteroidOne", 25.0, 0.5, 1.0, true,
                   [ApproachRecord("2024-10-10", "10.0", "1000000")])
  }

  function RecordTwo(): Json {
    AsteroidRecord("22222", "AsteroidTwo", 22.0, 0.7, 1.2, true,
                   [ApproachRecord("2024-12-15", "12.5", "7500000")])
  }

  /** The two test names joined by the merge's separator. */
  lemma JoinedNames()
    ensures "AsteroidOne" + " & " + "AsteroidTwo" == "AsteroidOne & AsteroidTwo"
  {
    var joined, expected := "AsteroidOne" + " & " + "AsteroidTwo", "AsteroidOne & AsteroidTwo";
    forall k | 0 <= k < |joined| ensures joined[k] == expected[k] {
    }
  }

  /**
   * The merge test: the merged name joins both names, the diameter is the summed minimum
   * 0.5 + 0.7, the masses add, the velocities 10 + 12.5 add, the normalised miss distances
   * 500000 + 3750000 add, and the composite is hazardous.
   */
  lemma OperatorPlusScenario(parseNum: NumParser)
    requires parseNum("10.0") == Some(10.0) && parseNum("1000000") == Some(1000000.0)
    requires parseNum("12.5") == Some(12.5) && parseNum("7500000") == Some(7500000.0)
    ensures ParseAsteroid(RecordOne(), parseNum).Ok? && ParseAsteroid(RecordTwo(), parseNum).Ok?
    ensures var a, b := ParseAsteroid(RecordOne(), parseNum).value, ParseAsteroid(RecordTwo(), parseNum).value;
            var c := Combine(a, b);
            c.body.name == "AsteroidOne & AsteroidTwo" &&
            c.body.diameter == 1.2 &&
            c.body.mass == a.body.mass + b.body.mass &&
            c.relativeVelocityKmPerS == 22.5 &&
            c.missDistanceKm == 4250000.0 &&
            c.isDangerous
  {
    var e1 := ApproachRecord("2024-10-10", "10.0", "1000000");
    var e2 := ApproachRecord("2024-12-15", "12.5", "7500000");
    ParseApproachRecord("2024-10-10", "10.0", "1000000", parseNum);
    ParseApproachRecord("2024-12-15", "12.5", "7500000", parseNum);
    OneApproachList(e1, parseNum);
    OneApproachList(e2, parseNum);
    assert NormalizeMissDistance(1000000.0) == 500000.0;
    assert NormalizeMissDistance(7500000.0) == 3750000.0;
    var list1 := [CloseApproach("2024-10-10", 10.0, 500000.0)];
    var list2 := [CloseApproach("2024-12-15", 12.5, 3750000.0)];
    ParseAsteroidRecord("11111", "AsteroidOne", 25.0, 0.5, 1.0, true, [e1], parseNum);
    ParseAsteroidRecord("22222", "AsteroidTwo", 22.0, 0.7, 1.2, true, [e2], parseNum);
    var a := ParseAsteroid(RecordOne(), parseNum).value;
    var b := ParseAsteroid(RecordTwo(), parseNum).value;
    assert a.body.name == "AsteroidOne" && a.minDiameterKm == 0.5;
    assert a.relativeVelocityKmPerS == 10.0 && a.missDistanceKm == 500000.0;
    assert b.body.name == "AsteroidTwo" && b.minDiameterKm == 0.7;
    assert b.relativeVelocityKmPerS == 12.5 && b.missDistanceKm == 3750000.0;
    JoinedNames();
  }

  /**
   * The merge test's getters as written: the merged asteroid keeps the first record's list,
   * so its first approach still has velocity 10 and miss distance 500000, while the test
   * expects the sums 22.5 and 4250000, which the merged reference values hold.
   */
  lemma MergedGettersAsWrittenScenario(parseNum: NumParser)
    requires parseNum("10.0") == Some(10.0) && parseNum("1000000") == Some(1000000.0)
    requires parseNum("12.5") == Some(12.5) && parseNum("7500000") == Some(7500000.0)
    ensures ParseAsteroid(RecordOne(), parseNum).Ok? && ParseAsteroid(RecordTwo(), parseNum).Ok?
    ensures var a, b := ParseAsteroid(RecordOne(), parseNum).value, ParseAsteroid(RecordTwo(), parseNum).value;
            var c := Combine(a, b);
            FirstVelocity(c.closeApproaches) == 10.0 && c.relativeVelocityKmPerS == 22.5 &&
            FirstMissDistance(c.closeApproaches) == 500000.0 && c.missDistanceKm == 4250000.0
  {
    OperatorPlusScenario(parseNum);
    var e1 := ApproachRecord("2024-10-10", "10.0", "1000000");
    ParseApproachRecord("2024-10-10", "10.0", "1000000", parseNum);
    OneApproachList(e1, parseNum);
    assert NormalizeMissDistance(1000000.0) == 500000.0;
    ParseAsteroidRecord("11111", "AsteroidOne", 25.0, 0.5, 1.0, true, [e1], parseNum);
    var a := ParseAsteroid(RecordOne(), parseNum).value;
    assert a.closeApproaches == [CloseApproach("2024-10-10", 10.0, 500000.0)];
  }

  /** A record without `estimated_diameter` builds nothing: the lookup reports the missing key. */
  lemma IncompleteRecordScenario(parseNum: NumParser)
    ensures var j := Object(map[
              "id" := Str("12345"),
              "neo_reference_id" := Str("12345"),
              "name" := Str("IncompleteAsteroid"),
              "nasa_jpl_url" := Str("https://ssd.jpl.nasa.gov/tools/sbdb_lookup.html#/?sstr=12345"),
              "absolute_magnitude_h" := Number(22.0),
              "is_potentially_hazardous_asteroid" := Bool(false),
              "close_approach_data" := Array([ApproachRecord("2024-10-10", "5.0", "500000")])]);
            ParseAsteroid(j, parseNum) == Err(MissingField("estimated_diameter"))
  {
    var j := Object(map[
      "id" := Str("12345"),
      "neo_reference_id" := Str("12345"),
      "name" := Str("IncompleteAsteroid"),
      "nasa_jpl_url" := Str("https://ssd.jpl.nasa.gov/tools/sbdb_lookup.html#/?sstr=12345"),
      "absolute_magnitude_h" := Number(22.0),
      "is_potentially_hazardous_asteroid" := Bool(false),
      "close_approach_data" := Array([ApproachRecord("2024-10-10", "5.0", "500000")])]);
    assert StringAt(j, NamePath) == Ok("IncompleteAsteroid") by { AtPathOne(j, "name"); }
    MissingDiameterReported(j, parseNum);
  }

  /** The URL a test record holds for id 66666. */
  lemma UrlOfRecord66666()
    ensures "https://ssd.jpl.nasa.gov/tools/sbdb_lookup.html#/?sstr=" + "66666"
            == "https://ssd.jpl.nasa.gov/tools/sbdb_lookup.html#/?sstr=66666"
  {
    var joined := "https://ssd.jpl.nasa.gov/tools/sbdb_lookup.html#/?sstr=" + "66666";
    var expected := "https://ssd.jpl.nasa.gov/tools/sbdb_lookup.html#/?sstr=66666";
    forall k | 0 <= k < |joined| ensures joined[k] == expected[k] {
    }
  }

  /** Two approach entries give two approaches, in record order, with the miss distances halved. */
  lemma MultipleApproachesScenario(parseNum: NumParser)
    requires parseNum("8.5") == Some(8.5) && parseNum("4000000") == Some(4000000.0)
    requires parseNum("10.0") == Some(10.0) && parseNum("5000000") == Some(5000000.0)
    ensures var j := AsteroidRecord("66666", "MultipleApproachAsteroid", 17.5, 0.9, 1.8, true,
                                    [ApproachRecord("2024-11-01", "8.5", "4000000"),
                                     ApproachRecord("2025-02-20", "10.0", "5000000")]);
            var r := ParseAsteroid(j, parseNum);
            r.Ok? &&
            r.value.body.name == "MultipleApproachAsteroid" &&
            r.value.id == "66666" &&
            r.value.nasaJplUrl == "https://ssd.jpl.nasa.gov/tools/sbdb_lookup.html#/?sstr=66666" &&
            r.value.body.diameter == 0.9 &&
            r.value.isDangerous &&
            r.value.absoluteMagnitude == 17.5 &&
            r.value.closeApproaches == [CloseApproach("2024-11-01", 8.5, 2000000.0),
                                        CloseApproach("2025-02-20", 10.0, 2500000.0)]
  {
    var e0 := ApproachRecord("2024-11-01", "8.5", "4000000");
    var e1 := ApproachRecord("2025-02-20", "10.0", "5000000");
    ParseApproachRecord("2024-11-01", "8.5", "4000000", parseNum);
    ParseApproachRecord("2025-02-20", "10.0", "5000000", parseNum);
    TwoApproachList(e0, e1, parseNum);
    ParseAsteroidRecord("66666", "MultipleApproachAsteroid", 17.5, 0.9, 1.8, true, [e0, e1], parseNum);
    UrlOfRecord66666();
  }

  /** An asteroid recorded at zero velocity carries no impact energy. */
  lemma ZeroVelocityScenario(parseNum: NumParser)
    requires parseNum("0.0") == Some(0.0) && parseNum("1000000") == Some(1000000.0)
    ensures var j := AsteroidRecord("55555", "ZeroVelocityAsteroid", 21.0, 0.4, 0.8, false,
                                    [ApproachRecord("2025-01-10", "0.0", "1000000")]);
            ParseAsteroid(j, parseNum).Ok? && ImpactEnergy(ParseAsteroid(j, parseNum).value) == 0.0
  {
    var e := ApproachRecord("2025-01-10", "0.0", "1000000");
    ParseApproachRecord("2025-01-10", "0.0", "1000000", parseNum);
    OneApproachList(e, parseNum);
    ParseAsteroidRecord("55555", "ZeroVelocityAsteroid", 21.0, 0.4, 0.8, false, [e], parseNum);
  }

  /** A non-positive diameter or mass is rejected with the matching message. */
  lemma InvalidPlanetScenario()
    ensures MakeSpaceBody("InvalidPlanet", -500.0, 5972370000000000000000000.0)
            == Err(InvalidArgument("Diameter must be positive."))
    ensures MakeSpaceBody("InvalidPlanet", 12742.0, -1.0) == Err(InvalidArgument("Mass must be positive."))
  {
  }

  /** The larger and heavier planet of the gravity test has the stronger surface gravity. */
  lemma GravityScenario()
    ensures SurfaceGravity(SpaceBody("Tiny", 1.0, 1000000000000000.0)) > 0.0
    ensures SurfaceGravity(SpaceBody("Giant", 100000.0, 1000000000000000000000000000000.0))
            > SurfaceGravity(SpaceBody("Tiny", 1.0, 1000000000000000.0))
  {
  }

  /**
   * The impact test: the Earth hit by the 1 km to 2 km asteroid loses exactly that
   * asteroid's mass.
   */
  method EarthImpactScenario(parseNum: NumParser) returns (remaining: real)
    requires parseNum("10.0") == Some(10.0) && parseNum("1000000") == Some(1000000.0)
    ensures remaining == 5972370000000000000000000.0 - MassFromDiameters(1.0, 2.0)
  {
    var created := NewPlanet("Earth", 12742.0, 5972370000000000000000000.0);
    var e := ApproachRecord("2025-01-01", "10.0", "1000000");
    ParseApproachRecord("2025-01-01", "10.0", "1000000", parseNum);
    OneApproachList(e, parseNum);
    ParseAsteroidRecord("999999", "ImpactAsteroid", 17.0, 1.0, 2.0, true, [e], parseNum);
    var impactor := ParseAsteroid(AsteroidRecord("999999", "ImpactAsteroid", 17.0, 1.0, 2.0, true, [e]), parseNum);
    var earth := created.value;
    earth.HandleImpact(impactor.value);
    remaining := earth.mass;
  }
}
