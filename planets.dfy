/**
 * A planet: a space body whose mass an asteroid impact changes in place. Its name and
 * diameter never change after construction.
 */
module Planets {
  import opened Errors
  import opened Bodies
  import opened Asteroids

  class Planet {
    const name: string
    const diameter: real
    var mass: real

    /** The body check of construction; only the diameter part survives impacts. */
    ghost predicate Valid()
      reads this
    {
      diameter > 0.0
    }

    /** The shared body fields, for the inherited gravity and escape-velocity queries. */
    function Body(): (b: SpaceBody)
      reads this
      ensures b.name == name && b.diameter == diameter && b.mass == mass
    {
      SpaceBody(name, diameter, mass)
    }

    /** The constructor once the body check has passed: it stores exactly what it is given. */
    constructor (name: string, diameter: real, mass: real)
      requires diameter > 0.0 && mass > 0.0
      ensures Valid()
      ensures this.name == name && this.diameter == diameter && this.mass == mass
    {
      this.name := name;
      this.diameter := diameter;
      this.mass := mass;
    }

    /**
     * `handleImpact`: the planet loses exactly the impactor's mass, with no floor, so the
     * mass may end at or below zero. The impactor is a value and cannot change.
     */
    method HandleImpact(impactor: Asteroid)
      modifies this
      ensures mass == old(mass) - impactor.body.mass
      ensures Valid() == old(Valid())
    {
      mass := mass - impactor.body.mass;
    }
  }

  /**
   * `Planet(name, diameter, mass)`: the same check as every space body, in the same order;
   * on success a fresh planet holding exactly the given values.
   */
  method NewPlanet(name: string, diameter: real, mass: real) returns (r: Result<Planet>)
    ensures r.Ok? <==> MakeSpaceBody(name, diameter, mass).Ok?
    ensures r.Err? ==> r.error == MakeSpaceBody(name, diameter, mass).error
    ensures r.Ok? ==> fresh(r.value) && r.value.Valid()
    ensures r.Ok? ==> r.value.Body() == MakeSpaceBody(name, diameter, mass).value
  {
    var body := MakeSpaceBody(name, diameter, mass);
    if body.Err? {
      return Err(body.error);
    }
    var p := new Planet(name, diameter, mass);
    return Ok(p);
  }

  /**
   * An impact followed by the inherited `calculateSurfaceGravity`: the diameter stays positive,
   * so gravity remains defined, and it is computed from the reduced mass.
   */
  method GravityAfterImpact(p: Planet, impactor: Asteroid) returns (g: real)
    requires p.Valid()
    modifies p
    ensures p.Valid()
    ensures p.mass == old(p.mass) - impactor.body.mass
    ensures g * Sq(RadiusMeters(p.diameter)) == G * p.mass
  {
    p.HandleImpact(impactor);
    g := SurfaceGravity(p.Body());
  }

  /**
   * An impact by an asteroid heavier than the planet leaves a negative mass: nothing clamps
   * it. Here a planet of mass 1 kg is hit by an asteroid of 3 kg.
   */
  method ImpactWithoutFloor(impactor: Asteroid) returns (remaining: real)
    requires impactor.body.mass == 3.0
    ensures remaining == -2.0
  {
    var p := new Planet("Tiny", 1.0, 1.0);
    p.HandleImpact(impactor);
    remaining := p.mass;
  }

  /** Two impacts in a row remove the sum of the two masses. */
  method ImpactsAccumulate(p: Planet, first: Asteroid, second: Asteroid)
    modifies p
    ensures p.mass == old(p.mass) - (first.body.mass + second.body.mass)
  {
    p.HandleImpact(first);
    p.HandleImpact(second);
  }
}
