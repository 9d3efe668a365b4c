/**
 * The state and physics every celestial body shares: a name, a diameter in kilometres and
 * a mass in kilograms, checked on construction, and the surface gravity and escape
 * velocity derived from them.
 */
module Bodies {
  import opened Errors

  /** Newton's gravitational constant, in m^3 kg^-1 s^-2. */
  const G: real := 0.0000000000667430

  const DiameterNotPositive: string := "Diameter must be positive."
  const MassNotPositive: string := "Mass must be positive."

  /** The fields of a SpaceBody: the diameter in km, the mass in kg. */
  datatype SpaceBody = SpaceBody(name: string, diameter: real, mass: real)

  /** What the constructor guarantees of every body it lets through. */
  predicate ValidBody(b: SpaceBody) {
    b.diameter > 0.0 && b.mass > 0.0
  }

  /**
   * The SpaceBody constructor: it stores the three values, then rejects a non-positive
   * diameter, and after that a non-positive mass, with `std::invalid_argument`.
   */
  function MakeSpaceBody(name: string, diameter: real, mass: real): (r: Result<SpaceBody>)
    ensures r.Ok? <==> diameter > 0.0 && mass > 0.0
    ensures r.Ok? ==> r.value == SpaceBody(name, diameter, mass) && ValidBody(r.value)
    ensures diameter <= 0.0 ==> r == Err(InvalidArgument(DiameterNotPositive))
    ensures diameter > 0.0 && mass <= 0.0 ==> r == Err(InvalidArgument(MassNotPositive))
  {
    if diameter <= 0.0 then Err(InvalidArgument(DiameterNotPositive))
    else if mass <= 0.0 then Err(InvalidArgument(MassNotPositive))
    else Ok(SpaceBody(name, diameter, mass))
  }

  /**
   * A product with its sign facts. `Sq` and `Cube` are written through it so that the
   * solver reasons about their signs from these facts rather than from the polynomial.
   */
  function Mul(x: real, y: real): (r: real)
    ensures x > 0.0 && y > 0.0 ==> r > 0.0
    ensures x < 0.0 && y < 0.0 ==> r > 0.0
    ensures x == 0.0 || y == 0.0 ==> r == 0.0
  {
    x * y
  }

  /** `x * x`, the `pow(x, 2)` of the library. */
  function Sq(x: real): (r: real)
    ensures r >= 0.0
    ensures x != 0.0 ==> r > 0.0
  {
    Mul(x, x)
  }

  /** `pow(x, 3)`. */
  function Cube(x: real): (r: real)
    ensures x >= 0.0 ==> r >= 0.0
    ensures x > 0.0 ==> r > 0.0
  {
    Mul(x, Sq(x))
  }

  /** The square grows strictly with a non-negative argument. */
  lemma SqIncreases(x: real, y: real)
    requires 0.0 <= x < y
    ensures Sq(x) < Sq(y)
  {
    assert Sq(y) - Sq(x) == (y - x) * (y + x);
    PositiveProduct(y - x, y + x);
  }

  lemma PositiveProduct(x: real, y: real)
    requires x > 0.0 && y > 0.0
    ensures x * y > 0.0
  {
  }

  lemma NonNegativeProduct(x: real, y: real)
    requires x >= 0.0 && y >= 0.0
    ensures x * y >= 0.0
  {
  }

  /** The sign of a product of two non-negative factors. */
  lemma ProductSigns(x: real, y: real)
    ensures x >= 0.0 && y >= 0.0 ==> x * y >= 0.0
    ensures x > 0.0 && y > 0.0 ==> x * y > 0.0
  {
    if x >= 0.0 && y >= 0.0 {
      NonNegativeProduct(x, y);
      if x > 0.0 && y > 0.0 {
        PositiveProduct(x, y);
      }
    }
  }

  /** A product with a positive second factor is positive only if the first factor is. */
  lemma PositiveFactor(x: real, y: real)
    requires y > 0.0 && x * y > 0.0
    ensures x > 0.0
  {
    if x <= 0.0 {
      NonNegativeProduct(-x, y);
    }
  }

  /** The radius in metres of a body whose diameter is `diameterKm` kilometres. */
  function RadiusMeters(diameterKm: real): (r: real)
    ensures r > 0.0 <==> diameterKm > 0.0
    ensures r >= 0.0 <==> diameterKm >= 0.0
  {
    (diameterKm * 1000.0) / 2.0
  }

  /** Surface gravity in m/s^2: the inverse-square law at the body's radius. */
  function SurfaceGravity(b: SpaceBody): (g: real)
    requires b.diameter > 0.0
    ensures g * Sq(RadiusMeters(b.diameter)) == G * b.mass
    ensures b.mass > 0.0 ==> g > 0.0
  {
    var radius := RadiusMeters(b.diameter);
    (G * b.mass) / Sq(radius)
  }

  /** `sqrt` is the square root on the non-negative reals. */
  ghost predicate IsSqrt(sqrt: real -> real) {
    forall x: real :: 0.0 <= x ==> 0.0 <= sqrt(x) && Sq(sqrt(x)) == x
  }

  /**
   * Escape velocity in km/s, `sqrt(2 G M / r) / 1000` with `r` in metres; `sqrt` is the
   * library square root, passed in.
   */
  function EscapeVelocity(b: SpaceBody, sqrt: real -> real): (v: real)
    requires b.diameter > 0.0 && IsSqrt(sqrt)
    ensures b.mass >= 0.0 ==>
              v >= 0.0 && Sq(v * 1000.0) == (2.0 * G * b.mass) / RadiusMeters(b.diameter)
    ensures b.mass > 0.0 ==> v > 0.0
  {
    var radius := RadiusMeters(b.diameter);
    sqrt((2.0 * G * b.mass) / radius) / 1000.0
  }

  /** At a fixed diameter, a heavier body has strictly stronger surface gravity. */
  lemma GravityIncreasesWithMass(b1: SpaceBody, b2: SpaceBody)
    requires b1.diameter > 0.0 && b2.diameter == b1.diameter
    requires b1.mass < b2.mass
    ensures SurfaceGravity(b1) < SurfaceGravity(b2)
  {
    var s := Sq(RadiusMeters(b1.diameter));
    var g1, g2 := SurfaceGravity(b1), SurfaceGravity(b2);
    var dg, dm := g2 - g1, b2.mass - b1.mass;
    assert dg * s == G * dm;
    PositiveProduct(G, dm);
    PositiveFactor(dg, s);
  }

  /** At a fixed positive mass, a wider body has strictly weaker surface gravity. */
  lemma GravityDecreasesWithDiameter(b1: SpaceBody, b2: SpaceBody)
    requires 0.0 < b1.diameter < b2.diameter
    requires b1.mass > 0.0 && b2.mass == b1.mass
    ensures SurfaceGravity(b1) > SurfaceGravity(b2)
  {
    var r1, r2 := RadiusMeters(b1.diameter), RadiusMeters(b2.diameter);
    SqIncreases(r1, r2);
    var s1, s2 := Sq(r1), Sq(r2);
    var g1, g2 := SurfaceGravity(b1), SurfaceGravity(b2);
    assert g1 * s1 == g2 * s2;
    PositiveProduct(g2, s2 - s1);
    assert (g1 - g2) * s1 == g2 * (s2 - s1);
    PositiveFactor(g1 - g2, s1);
  }

  /** The square root is strictly increasing on the non-negative reals. */
  lemma SqrtIncreases(sqrt: real -> real, x: real, y: real)
    requires IsSqrt(sqrt) && 0.0 <= x < y
    ensures sqrt(x) < sqrt(y)
  {
    var sx, sy := sqrt(x), sqrt(y);
    assert 0.0 <= sx && Sq(sx) == x;
    assert 0.0 <= sy && Sq(sy) == y;
    if sy < sx {
      SqIncreases(sy, sx);
    }
  }

  /** At a fixed diameter, a heavier body has strictly greater escape velocity. */
  lemma EscapeVelocityIncreasesWithMass(b1: SpaceBody, b2: SpaceBody, sqrt: real -> real)
    requires IsSqrt(sqrt)
    requires b1.diameter > 0.0 && b2.diameter == b1.diameter
    requires 0.0 <= b1.mass < b2.mass
    ensures EscapeVelocity(b1, sqrt) < EscapeVelocity(b2, sqrt)
  {
    var radius := RadiusMeters(b1.diameter);
    var x1, x2 := (2.0 * G * b1.mass) / radius, (2.0 * G * b2.mass) / radius;
    assert x2 - x1 == (2.0 * G * (b2.mass - b1.mass)) / radius;
    assert 0.0 <= x1 < x2;
    SqrtIncreases(sqrt, x1, x2);
  }

  /** At a fixed positive mass, a wider body has strictly smaller escape velocity. */
  lemma EscapeVelocityDecreasesWithDiameter(b1: SpaceBody, b2: SpaceBody, sqrt: real -> real)
    requires IsSqrt(sqrt)
    requires 0.0 < b1.diameter < b2.diameter
    requires b1.mass > 0.0 && b2.mass == b1.mass
    ensures EscapeVelocity(b1, sqrt) > EscapeVelocity(b2, sqrt)
  {
    var r1, r2 := RadiusMeters(b1.diameter), RadiusMeters(b2.diameter);
    var k := 2.0 * G * b1.mass;
    var x1, x2 := k / r1, k / r2;
    assert k > 0.0 && 0.0 < r1 < r2;
    assert x1 * r1 == k && x2 * r2 == k;
    assert (x1 - x2) * r1 == x2 * (r2 - r1);
    PositiveProduct(x2, r2 - r1);
    PositiveFactor(x1 - x2, r1);
    SqrtIncreases(sqrt, x2, x1);
  }
}
