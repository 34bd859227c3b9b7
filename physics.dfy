/** Two-body orbital mechanics in the plane: a leapfrog integrator around a
    central body of gravitational parameter μ, and the classical orbital
    elements derived from a position and a velocity. */
module Physics {
  import opened RealMath
  import opened Options

  /** A plane vector (pygame's `Vector2`). */
  datatype Vector2 = Vector2(x: real, y: real)

  const Origin: Vector2 := Vector2(0.0, 0.0)

  function Plus(a: Vector2, b: Vector2): Vector2
  {
    Vector2(a.x + b.x, a.y + b.y)
  }

  function Times(a: Vector2, k: real): Vector2
  {
    Vector2(a.x * k, a.y * k)
  }

  /** `Vector2.length()`: the Euclidean length, zero exactly at the origin. */
  function Length(m: Elementary, v: Vector2): (r: real)
    requires Lawful(m)
    ensures 0.0 <= r && Sq(r) == Sq(v.x) + Sq(v.y)
    ensures r == 0.0 <==> v == Origin
  {
    SqSign(v.x);
    SqSign(v.y);
    var r := m.sqrt(Sq(v.x) + Sq(v.y));
    SqSign(r);
    r
  }

  /** `x ** 3`. */
  function Cube(x: real): real
  {
    x * x * x
  }

  /** A positive number has a positive cube. */
  lemma CubePositive(x: real)
    requires 0.0 < x
    ensures 0.0 < Cube(x)
  {
    ProductPositive(x, x, Sq(x));
    ProductPositive(Sq(x), x, Cube(x));
  }

  /** A position, a velocity and the simulated time. */
  datatype OrbitState = OrbitState(position: Vector2, velocity: Vector2, time: real)

  /** Gravitational acceleration `-μ·r / |r|³`, and the zero vector when the
      satellite sits at the centre. It always points along the position. */
  function Acceleration(m: Elementary, mu: real, r: Vector2): (a: Vector2)
    requires Lawful(m)
    ensures r == Origin ==> a == Origin
    ensures AngularMomentumZ(r, a) == 0.0
    ensures mu == 0.0 ==> a == Origin
  {
    var distance := Length(m, r);
    if distance == 0.0 then Origin
    else
      CubePositive(distance);
      var c := Cube(distance);
      var a := Vector2((-mu * r.x) / c, (-mu * r.y) / c);
      QuotientsParallel(-mu, r.x, r.y, c);
      a
  }

  /** `(u·x / c)·y = (u·y / c)·x`: scaling both coordinates by the same factor
      keeps the vector parallel. */
  lemma QuotientsParallel(u: real, x: real, y: real, c: real)
    requires c != 0.0
    ensures x * ((u * y) / c) - y * ((u * x) / c) == 0.0
  {
    var p, q := (u * x) / c, (u * y) / c;
    assert p * c == u * x && q * c == u * y;
    assert (x * q - y * p) * c == x * (q * c) - y * (p * c);
    ZeroProduct(x * q - y * p, c);
  }

  /** One kick–drift–kick leapfrog step of length `dt`: half a velocity kick
      from the acceleration at the old position, a full drift, then half a
      kick from the acceleration at the new position. */
  function Leapfrog(m: Elementary, mu: real, s: OrbitState, dt: real): (t: OrbitState)
    requires Lawful(m)
    ensures t.time == s.time + dt
  {
    var v1 := Plus(s.velocity, Times(Acceleration(m, mu, s.position), dt / 2.0));
    var p1 := Plus(s.position, Times(v1, dt));
    var v2 := Plus(v1, Times(Acceleration(m, mu, p1), dt / 2.0));
    OrbitState(p1, v2, s.time + dt)
  }

  class OrbitSimulator {
    var mu: real
    var state: OrbitState

    /** A simulator at time zero with the given body and initial state. */
    constructor (mu: real, position: Vector2, velocity: Vector2)
      ensures this.mu == mu && state == OrbitState(position, velocity, 0.0)
    {
      this.mu := mu;
      state := OrbitState(position, velocity, 0.0);
    }

    /** Replace the body and the state, restarting the clock. */
    method Reset(mu: real, position: Vector2, velocity: Vector2)
      modifies this
      ensures this.mu == mu && state == OrbitState(position, velocity, 0.0)
    {
      this.mu := mu;
      state := OrbitState(position, velocity, 0.0);
    }

    /** The acceleration at the current position. */
    function CurrentAcceleration(m: Elementary): (a: Vector2)
      requires Lawful(m)
      reads this
      ensures a == Acceleration(m, mu, state.position)
      ensures state.position == Origin ==> a == Origin
    {
      Acceleration(m, mu, state.position)
    }

    /** Advance by `dt`. A non-positive `dt` is ignored; otherwise the velocity
        and position are updated in place, the second kick reading the already
        moved position, and the clock advances by exactly `dt`. */
    method Step(m: Elementary, dt: real)
      requires Lawful(m)
      modifies this
      ensures mu == old(mu)
      ensures dt <= 0.0 ==> state == old(state)
      ensures 0.0 < dt ==> state == Leapfrog(m, mu, old(state), dt)
      ensures 0.0 < dt ==> state.time == old(state.time) + dt
    {
      if dt <= 0.0 {
        return;
      }
      var accelInitial := CurrentAcceleration(m);
      state := state.(velocity := Plus(state.velocity, Times(accelInitial, dt / 2.0)));
      state := state.(position := Plus(state.position, Times(state.velocity, dt)));
      var accelFinal := CurrentAcceleration(m);
      state := state.(velocity := Plus(state.velocity, Times(accelFinal, dt / 2.0)));
      state := state.(time := state.time + dt);
    }

    /** A snapshot of the state; being a value, later steps do not change it. */
    method CurrentState() returns (s: OrbitState)
      ensures s == state
    {
      s := state;
    }
  }

  /** A kick along the position leaves the angular momentum unchanged. */
  lemma KickKeepsMomentum(p: Vector2, v: Vector2, a: Vector2, k: real)
    requires AngularMomentumZ(p, a) == 0.0
    ensures AngularMomentumZ(p, Plus(v, Times(a, k))) == AngularMomentumZ(p, v)
  {
    assert AngularMomentumZ(p, Plus(v, Times(a, k))) == AngularMomentumZ(p, v) + k * AngularMomentumZ(p, a);
  }

  /** A drift along the velocity leaves the angular momentum unchanged. */
  lemma DriftKeepsMomentum(p: Vector2, v: Vector2, dt: real)
    ensures AngularMomentumZ(Plus(p, Times(v, dt)), v) == AngularMomentumZ(p, v)
  {
    assert AngularMomentumZ(Plus(p, Times(v, dt)), v) == AngularMomentumZ(p, v) + dt * AngularMomentumZ(v, v);
  }

  /** The leapfrog step conserves angular momentum exactly: both kicks act
      along the position and the drift acts along the velocity. */
  lemma {:induction false} LeapfrogConservesMomentum(m: Elementary, mu: real, s: OrbitState, dt: real)
    requires Lawful(m)
    ensures AngularMomentumZ(Leapfrog(m, mu, s, dt).position, Leapfrog(m, mu, s, dt).velocity)
         == AngularMomentumZ(s.position, s.velocity)
  {
    var a0 := Acceleration(m, mu, s.position);
    var v1 := Plus(s.velocity, Times(a0, dt / 2.0));
    var p1 := Plus(s.position, Times(v1, dt));
    var a1 := Acceleration(m, mu, p1);
    var v2 := Plus(v1, Times(a1, dt / 2.0));
    assert Leapfrog(m, mu, s, dt) == OrbitState(p1, v2, s.time + dt);
    KickDriftKick(s.position, s.velocity, a0, a1, dt);
  }

  /** A kick along the position, a drift along the velocity and a kick along
      the moved position together keep the angular momentum. */
  lemma KickDriftKick(p: Vector2, v: Vector2, a0: Vector2, a1: Vector2, dt: real)
    requires AngularMomentumZ(p, a0) == 0.0
    requires AngularMomentumZ(Plus(p, Times(Plus(v, Times(a0, dt / 2.0)), dt)), a1) == 0.0
    ensures
      var v1 := Plus(v, Times(a0, dt / 2.0));
      var p1 := Plus(p, Times(v1, dt));
      AngularMomentumZ(p1, Plus(v1, Times(a1, dt / 2.0))) == AngularMomentumZ(p, v)
  {
    var v1 := Plus(v, Times(a0, dt / 2.0));
    var p1 := Plus(p, Times(v1, dt));
    KickKeepsMomentum(p, v, a0, dt / 2.0);
    DriftKeepsMomentum(p, v1, dt);
    KickKeepsMomentum(p1, v1, a1, dt / 2.0);
  }

  /** Without gravity the step is a straight-line drift at constant velocity. */
  lemma FreeMotion(m: Elementary, s: OrbitState, dt: real)
    requires Lawful(m)
    ensures Leapfrog(m, 0.0, s, dt) == OrbitState(Plus(s.position, Times(s.velocity, dt)), s.velocity, s.time + dt)
  {
    assert Acceleration(m, 0.0, s.position) == Origin;
    assert Plus(s.velocity, Times(Origin, dt / 2.0)) == s.velocity;
    var p1 := Plus(s.position, Times(s.velocity, dt));
    assert Acceleration(m, 0.0, p1) == Origin;
  }

  /** A value that may be positive infinity (`float("inf")`). */
  datatype Energy = Finite(value: real) | Infinite

  /** Specific orbital energy `v²/2 - μ/r`, infinite at the centre. */
  function SpecificEnergy(m: Elementary, mu: real, position: Vector2, velocity: Vector2): (e: Energy)
    requires Lawful(m)
    ensures e.Infinite? <==> position == Origin
    ensures e.Finite? ==> e.value == 0.5 * Sq(Length(m, velocity)) - mu / Length(m, position)
  {
    var distance := Length(m, position);
    if distance == 0.0 then Infinite
    else
      var speed := Length(m, velocity);
      Finite(0.5 * speed * speed - mu / distance)
  }

  /** The z-component of the specific angular momentum `r × v`. */
  function AngularMomentumZ(position: Vector2, velocity: Vector2): real
  {
    position.x * velocity.y - position.y * velocity.x
  }

  /** The cross product is antisymmetric, and zero for parallel vectors. */
  lemma MomentumAntisymmetric(position: Vector2, velocity: Vector2, k: real)
    ensures AngularMomentumZ(position, velocity) == -AngularMomentumZ(velocity, position)
    ensures AngularMomentumZ(position, Times(position, k)) == 0.0
  {
    assert position.x * (position.y * k) == position.y * (position.x * k);
  }

  /** An operation that either yields a value or raises `ZeroDivisionError`. */
  datatype Outcome<T> = Value(get: T) | ZeroDivision

  /** The eccentricity vector `(v × h)/μ - r/|r|`; the zero vector at the
      centre. Dividing by μ = 0 raises. */
  function EccentricityVector(m: Elementary, mu: real, position: Vector2, velocity: Vector2): (e: Outcome<Vector2>)
    requires Lawful(m)
    ensures e.ZeroDivision? <==> position != Origin && mu == 0.0
    ensures position == Origin ==> e == Value(Origin)
  {
    var distance := Length(m, position);
    if distance == 0.0 then Value(Origin)
    else if mu == 0.0 then ZeroDivision
    else
      var h := AngularMomentumZ(position, velocity);
      Value(Vector2(velocity.y * h / mu - position.x / distance, -velocity.x * h / mu - position.y / distance))
  }

  /** The semi-major axis `-μ / 2E`, defined only for bound orbits (negative
      energy); it is then positive and so is μ. */
  function SemiMajorAxis(m: Elementary, mu: real, position: Vector2, velocity: Vector2): (a: Option<real>)
    requires Lawful(m)
    ensures a.None? <==> SpecificEnergy(m, mu, position, velocity).Infinite? || SpecificEnergy(m, mu, position, velocity).value >= 0.0
    ensures a.Some? ==> 0.0 < a.value && 0.0 < mu
  {
    var energy := SpecificEnergy(m, mu, position, velocity);
    if energy.Infinite? || energy.value >= 0.0 then None
    else
      BoundNeedsGravity(m, mu, position, velocity);
      NegativeQuotient(mu, energy.value);
      Some(-mu / (2.0 * energy.value))
  }

  /** Negative energy needs μ > 0: the kinetic term is never negative. */
  lemma BoundNeedsGravity(m: Elementary, mu: real, position: Vector2, velocity: Vector2)
    requires Lawful(m)
    requires SpecificEnergy(m, mu, position, velocity).Finite? && SpecificEnergy(m, mu, position, velocity).value < 0.0
    ensures 0.0 < mu
  {
    var d, s := Length(m, position), Length(m, velocity);
    SqSign(s);
    assert 0.0 < d;
    assert 0.0 < mu / d;
    if mu <= 0.0 {
      QuotientSign(mu, d);
    }
  }

  /** A non-positive number over a positive one is not positive. */
  lemma QuotientSign(a: real, b: real)
    requires a <= 0.0 && 0.0 < b
    ensures a / b <= 0.0
  {
    if a < 0.0 {
      ProductPositive(-a, 1.0 / b, -a / b);
    }
  }

  /** `-μ / 2E` is positive for positive μ and negative E. */
  lemma NegativeQuotient(mu: real, e: real)
    requires 0.0 < mu && e < 0.0
    ensures 0.0 < -mu / (2.0 * e)
  {
    ProductPositive(mu, -1.0 / (2.0 * e), -mu / (2.0 * e));
  }

  /** The orbital period `2π·sqrt(a³/μ)`: defined exactly when the semi-major
      axis is, and then positive. */
  function OrbitalPeriod(m: Elementary, mu: real, position: Vector2, velocity: Vector2): (t: Option<real>)
    requires Lawful(m)
    ensures t.None? <==> SemiMajorAxis(m, mu, position, velocity).None?
    ensures t.Some? ==> 0.0 < t.value
  {
    var a := SemiMajorAxis(m, mu, position, velocity);
    if a.None? then None
    else
      CubePositive(a.value);
      ProductPositive(Cube(a.value), 1.0 / mu, Cube(a.value) / mu);
      SqrtPositive(m, Cube(a.value) / mu);
      ProductPositive(2.0 * Pi, m.sqrt(Cube(a.value) / mu), 2.0 * Pi * m.sqrt(Cube(a.value) / mu));
      Some(2.0 * Pi * m.sqrt(Cube(a.value) / mu))
  }

  /** The eccentricity `|e|`, or the division error. */
  function Eccentricity(m: Elementary, mu: real, position: Vector2, velocity: Vector2): (e: Outcome<real>)
    requires Lawful(m)
    ensures e.ZeroDivision? <==> EccentricityVector(m, mu, position, velocity).ZeroDivision?
    ensures e.Value? ==> 0.0 <= e.get
  {
    var ev := EccentricityVector(m, mu, position, velocity);
    if ev.ZeroDivision? then ZeroDivision else Value(Length(m, ev.get))
  }

  /** The periapsis distance `a·(1 - e)`. The eccentricity is computed first,
      so the division error comes before the check of `a`; otherwise the
      result is absent exactly when `a` is. */
  function Periapsis(m: Elementary, mu: real, position: Vector2, velocity: Vector2): (q: Outcome<Option<real>>)
    requires Lawful(m)
    ensures q.ZeroDivision? <==> position != Origin && mu == 0.0
    ensures q.Value? ==> (q.get.None? <==> SemiMajorAxis(m, mu, position, velocity).None?)
  {
    var e := Eccentricity(m, mu, position, velocity);
    var a := SemiMajorAxis(m, mu, position, velocity);
    if e.ZeroDivision? then ZeroDivision
    else if a.None? then Value(None)
    else Value(Some(a.value * (1.0 - e.get)))
  }

  /** The apoapsis distance `a·(1 + e)`, absent when `a` is or when the orbit
      is not closed (`e ≥ 1`). */
  function Apoapsis(m: Elementary, mu: real, position: Vector2, velocity: Vector2): (q: Outcome<Option<real>>)
    requires Lawful(m)
    ensures q.ZeroDivision? <==> position != Origin && mu == 0.0
    ensures q.Value? ==> (q.get.None? <==> SemiMajorAxis(m, mu, position, velocity).None? || 1.0 <= Eccentricity(m, mu, position, velocity).get)
  {
    var e := Eccentricity(m, mu, position, velocity);
    var a := SemiMajorAxis(m, mu, position, velocity);
    if e.ZeroDivision? then ZeroDivision
    else if a.None? then Value(None)
    else if e.get >= 1.0 then Value(None)
    else Value(Some(a.value * (1.0 + e.get)))
  }

  /** Whenever the apoapsis exists, so does the periapsis, and it is the
      nearer of the two while staying positive. */
  lemma ApsidesOrdered(m: Elementary, mu: real, position: Vector2, velocity: Vector2)
    requires Lawful(m)
    requires Apoapsis(m, mu, position, velocity).Value? && Apoapsis(m, mu, position, velocity).get.Some?
    ensures Periapsis(m, mu, position, velocity).Value? && Periapsis(m, mu, position, velocity).get.Some?
    ensures 0.0 < Periapsis(m, mu, position, velocity).get.value <= Apoapsis(m, mu, position, velocity).get.value
  {
    assert Eccentricity(m, mu, position, velocity).Value?;
    assert SemiMajorAxis(m, mu, position, velocity).Some?;
    var a := SemiMajorAxis(m, mu, position, velocity).value;
    var e := Eccentricity(m, mu, position, velocity).get;
    assert 0.0 < a && 0.0 <= e < 1.0;
    assert Periapsis(m, mu, position, velocity).Value?;
    assert Periapsis(m, mu, position, velocity).get.Some?;
    assert Periapsis(m, mu, position, velocity).get.value == a * (1.0 - e);
    assert Apoapsis(m, mu, position, velocity) == Value(Some(a * (1.0 + e)));
    ProductPositive(a, 1.0 - e, a * (1.0 - e));
    ScaleMonotone(a, 1.0 - e, 1.0 + e);
  }

  /** Without gravity there is no semi-major axis, and the periapsis fails
      with a division by zero (the eccentricity vector divides by mu). */
  lemma PeriapsisRaisesWithoutGravity(m: Elementary, position: Vector2, velocity: Vector2)
    requires Lawful(m) && position != Origin
    ensures SemiMajorAxis(m, 0.0, position, velocity).None?
    ensures Periapsis(m, 0.0, position, velocity).ZeroDivision?
  {
    var s := Length(m, velocity);
    SqSign(s);
    var d := Length(m, position);
    assert 0.0 / d == 0.0;
    assert SpecificEnergy(m, 0.0, position, velocity).value == 0.5 * Sq(s);
    assert EccentricityVector(m, 0.0, position, velocity).ZeroDivision?;
  }
}
