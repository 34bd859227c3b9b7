/** The circular orbit of the satellite: an angle advanced at a constant angular
    velocity and kept in [0, 2π), and the position and velocity it implies. */
module Orbits {
  import opened RealMath
  import opened Vectors

  /** The orbit's radius and angular velocity (radians per second). */
  datatype OrbitParameters = OrbitParameters(radius: real, angularVelocity: real)

  /** The minimum radius `set_radius` accepts. */
  const MinRadius: real := 1.5

  class OrbitSimulator {
    var params: OrbitParameters
    var angle: real

    /** The angle is always a wrapped angle. */
    predicate Valid()
      reads this
    {
      0.0 <= angle < Tau
    }

    /** A new orbit starts at angle zero with the given parameters. */
    constructor (p: OrbitParameters)
      ensures Valid()
      ensures params == p && angle == 0.0
    {
      params := p;
      angle := 0.0;
    }

    /** Advance the angle by `ω·dt`, wrapped into one turn. */
    method Update(dt: real)
      modifies this
      ensures Valid()
      ensures params == old(params)
      ensures angle == Advanced(old(angle), old(params.angularVelocity), dt)
    {
      angle := Advanced(angle, params.angularVelocity, dt);
    }

    /** Store the radius, raised to at least 1.5. */
    method SetRadius(radius: real)
      modifies this
      ensures params == old(params).(radius := Max(radius, MinRadius))
      ensures MinRadius <= params.radius && (MinRadius <= radius ==> params.radius == radius)
      ensures angle == old(angle)
    {
      params := params.(radius := Max(radius, MinRadius));
    }

    /** Store the angular velocity as given, negative values included. */
    method SetSpeed(angularVelocity: real)
      modifies this
      ensures params == old(params).(angularVelocity := angularVelocity)
      ensures angle == old(angle)
    {
      params := params.(angularVelocity := angularVelocity);
    }

    /** Set the angle, wrapped into one turn. */
    method SetAngle(a: real)
      modifies this
      ensures Valid()
      ensures params == old(params)
      ensures angle == WrapAngle(a)
      ensures 0.0 <= a < Tau ==> angle == a
    {
      angle := WrapAngle(a);
    }

    /** The satellite's position: on the circle of the orbit's radius in the
        z = 0 plane. */
    function Position(m: Elementary): (p: Vec3)
      requires Lawful(m)
      reads this
      ensures p.z == 0.0
      ensures Sq(p.x) + Sq(p.y) == Sq(params.radius)
    {
      var p := Vec3(params.radius * m.cos(angle), params.radius * m.sin(angle), 0.0);
      Pythagoras(m, angle);
      PolarSq(params.radius, m.cos(angle), m.sin(angle), p.x, p.y);
      p
    }

    /** The satellite's velocity: the position turned a quarter turn
        counter-clockwise and scaled by the angular velocity, hence tangent to
        the orbit and of speed `|r·ω|`. */
    function Velocity(m: Elementary): (v: Vec3)
      requires Lawful(m)
      reads this
      ensures v == Vec3(-Position(m).y * params.angularVelocity, Position(m).x * params.angularVelocity, 0.0)
      ensures Dot(v, Position(m)) == 0.0
      ensures Sq(v.x) + Sq(v.y) == Sq(params.radius * params.angularVelocity)
    {
      var r, w := params.radius, params.angularVelocity;
      var v := Vec3(-r * m.sin(angle) * w, r * m.cos(angle) * w, 0.0);
      assert v.x == -(r * w) * m.sin(angle) && v.y == (r * w) * m.cos(angle);
      SqNeg(v.x);
      Pythagoras(m, angle);
      PolarSq(r * w, m.sin(angle), m.cos(angle), -v.x, v.y);
      v
    }

    /** The parameters as a triple (radius, angular velocity, angle); the angle
        is in [0, 2π) whenever the orbit is valid. */
    function Parameters(): (t: (real, real, real))
      reads this
      ensures t.0 == params.radius && t.1 == params.angularVelocity && t.2 == angle
      ensures Valid() ==> 0.0 <= t.2 < Tau
    {
      (params.radius, params.angularVelocity, angle)
    }
  }

  /** The angle after advancing `angle` at angular velocity `w` for `dt`
      seconds: `(angle + w·dt) mod 2π`. */
  function Advanced(angle: real, w: real, dt: real): real
  {
    WrapAngle(angle + w * dt)
  }

  /** Two updates at the same angular velocity land where one update by the
      summed time step does. */
  lemma UpdatesCompose(angle: real, w: real, dt1: real, dt2: real)
    ensures Advanced(Advanced(angle, w, dt1), w, dt2) == Advanced(angle, w, dt1 + dt2)
  {
    WrapAngleShift(angle + w * dt1, w * dt2);
    Distribute(w, dt1, dt2);
  }

  /** A negative angular velocity still leaves the angle in [0, 2π): half a turn
      backwards from zero is half a turn forwards. */
  lemma BackwardsHalfTurn()
    ensures Advanced(0.0, -1.0, Pi) == Pi
  {
    assert (-Pi / Tau).Floor == -1;
  }

  /** One and a half turns forwards from zero wrap to half a turn. */
  lemma TurnAndAHalf()
    ensures Advanced(0.0, Tau, 1.5) == Pi
  {
    assert (Tau * 1.5 / Tau).Floor == 1;
  }
}
