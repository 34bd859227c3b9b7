/** The CPU ray tracer: one ray per pixel from the camera, an analytic test
    against the satellite sphere, a sphere-marching test against the planet's
    height field, shadow-gated Phong shading, haze, and the final clip and
    scale to bytes. */
module Renderer {
  import opened RealMath
  import opened Vectors
  import opened Options
  import Planets
  import Orbits
  import Cameras
  import Rows

  /** A directional light: the direction it shines in, its colour and its
      intensity (1.2 by default). */
  datatype Light = Light(direction: Vec3, color: Vec3, intensity: real)

  /** Image size, vertical field of view, how far a ray marches, the marching
      tolerance and the marching step budget. */
  datatype RenderSettings = RenderSettings(
    width: nat, height: nat, fov: real,
    maxDistance: real, planetTolerance: real, planetSteps: nat)

  const DefaultSettings: RenderSettings := RenderSettings(640, 480, Radians(60.0), 100.0, 0.005, 128)

  /** Base colour, specular weight and Phong exponent of a surface. */
  datatype Material = Material(baseColor: Vec3, specular: real, shininess: real)

  const PlanetMaterial: Material := Material(Vec3(0.4, 0.55, 0.35), 0.2, 32.0)
  const SatelliteMaterial: Material := Material(Vec3(0.8, 0.8, 0.85), 0.4, 64.0)
  const SpaceColor: Vec3 := Vec3(0.02, 0.02, 0.05)
  const SkyColor: Vec3 := Vec3(0.1, 0.2, 0.4)

  /** A ray hit: the ray parameter and the point it reaches. */
  datatype Hit = Hit(t: real, point: Vec3)

  /** Hits closer than this along the ray are ignored. */
  const Epsilon: real := 0.0001

  // Ray and sphere.

  /** With `oc = origin - center`, `b = oc·direction` and `c = |oc|² - r²`,
      the ray meets the sphere where `t² + 2bt + c = 0` for a unit
      direction; this is the reduced discriminant `b² - c`. */
  function HalfB(origin: Vec3, direction: Vec3, center: Vec3): real
  {
    Dot(Sub(origin, center), direction)
  }

  function Offset(origin: Vec3, center: Vec3, radius: real): real
  {
    Dot(Sub(origin, center), Sub(origin, center)) - Sq(radius)
  }

  function Discriminant(origin: Vec3, direction: Vec3, center: Vec3, radius: real): real
  {
    Sq(HalfB(origin, direction, center)) - Offset(origin, center, radius)
  }

  /** The two roots `-b ∓ √disc`, for a non-negative discriminant. */
  function NearRoot(m: Elementary, origin: Vec3, direction: Vec3, center: Vec3, radius: real): real
  {
    -HalfB(origin, direction, center) - m.sqrt(Discriminant(origin, direction, center, radius))
  }

  function FarRoot(m: Elementary, origin: Vec3, direction: Vec3, center: Vec3, radius: real): real
  {
    -HalfB(origin, direction, center) + m.sqrt(Discriminant(origin, direction, center, radius))
  }

  /** The first intersection of a ray with a sphere in front of the origin.
      There is none exactly when the discriminant is negative or both roots
      are at most 1e-4; otherwise the near root is taken when it is beyond
      1e-4 and the far root when it is not, and the hit point is the ray at
      that parameter. */
  function IntersectSphere(m: Elementary, origin: Vec3, direction: Vec3, center: Vec3, radius: real): (r: Option<Hit>)
    ensures r.None? <==>
      Discriminant(origin, direction, center, radius) < 0.0 ||
      (NearRoot(m, origin, direction, center, radius) <= Epsilon && FarRoot(m, origin, direction, center, radius) <= Epsilon)
    ensures r.Some? ==> Epsilon < r.value.t && r.value.point == Add(origin, Scale(direction, r.value.t))
    ensures r.Some? ==> r.value.t == (if Epsilon < NearRoot(m, origin, direction, center, radius)
                                      then NearRoot(m, origin, direction, center, radius)
                                      else FarRoot(m, origin, direction, center, radius))
  {
    var oc := Sub(origin, center);
    var b := Dot(oc, direction);
    var c := Dot(oc, oc) - Sq(radius);
    var discriminant := Sq(b) - c;
    if discriminant < 0.0 then None
    else
      var sqrtDisc := m.sqrt(discriminant);
      var t := if -b - sqrtDisc <= Epsilon then -b + sqrtDisc else -b - sqrtDisc;
      if t <= Epsilon then None
      else Some(Hit(t, Add(origin, Scale(direction, t))))
  }

  /** A unit ray from (0, 0, -10) along +z meets the unit sphere at the origin
      first at t = 9, the near root, and not at t = 11. */
  lemma NearRootFirst(m: Elementary)
    requires Lawful(m)
    ensures IntersectSphere(m, Vec3(0.0, 0.0, -10.0), UnitZ, Zero, 1.0) == Some(Hit(9.0, Vec3(0.0, 0.0, -1.0)))
  {
    SqrtOne(m);
    ExampleQuadratic();
    NearRootTaken(m, Vec3(0.0, 0.0, -10.0), UnitZ, Zero, 1.0);
  }

  /** Proof step of `NearRootFirst`: a ray whose `b` is -10 and whose
      discriminant is 1 hits at t = 9. */
  lemma NearRootTaken(m: Elementary, origin: Vec3, direction: Vec3, center: Vec3, radius: real)
    requires m.sqrt(1.0) == 1.0
    requires HalfB(origin, direction, center) == -10.0 && Discriminant(origin, direction, center, radius) == 1.0
    ensures IntersectSphere(m, origin, direction, center, radius) == Some(Hit(9.0, Add(origin, Scale(direction, 9.0))))
  {
    assert NearRoot(m, origin, direction, center, radius) == 9.0;
  }

  /** Proof step of `NearRootFirst`: the coefficients of that example,
      `b = -10`, `c = 99` and discriminant 1. */
  lemma ExampleQuadratic()
    ensures HalfB(Vec3(0.0, 0.0, -10.0), UnitZ, Zero) == -10.0
    ensures Discriminant(Vec3(0.0, 0.0, -10.0), UnitZ, Zero, 1.0) == 1.0
    ensures Add(Vec3(0.0, 0.0, -10.0), Scale(UnitZ, 9.0)) == Vec3(0.0, 0.0, -1.0)
  {
    assert Offset(Vec3(0.0, 0.0, -10.0), Zero, 1.0) == 99.0;
  }

  /** The same ray moved five units sideways misses: `b = -10` and
      `c = 124`, so the discriminant is -24. */
  lemma OffsetRayMisses(m: Elementary)
    ensures IntersectSphere(m, Vec3(5.0, 0.0, -10.0), UnitZ, Zero, 1.0) == None
  {
    assert Discriminant(Vec3(5.0, 0.0, -10.0), UnitZ, Zero, 1.0) == -24.0;
  }

  /** A point of the sphere lies on the ray strictly beyond 1e-4. */
  ghost predicate SphereAhead(origin: Vec3, direction: Vec3, center: Vec3, radius: real)
  {
    exists t :: Epsilon < t && MeetsSphereAt(origin, direction, center, radius, t)
  }

  /** The ray's point at `t` is at distance `radius` from `center`: its offset
      from the centre, `(origin - center) + t·direction`, has squared length
      `radius²`. */
  predicate MeetsSphereAt(origin: Vec3, direction: Vec3, center: Vec3, radius: real, t: real)
  {
    var offset := Add(Sub(origin, center), Scale(direction, t));
    Dot(offset, offset) == Sq(radius)
  }

  /** For a unit direction the sphere test misses exactly when no point of the
      sphere lies ahead on the ray, and a hit is the nearest such point. */
  lemma IntersectSphereFindsSphereAhead(m: Elementary, origin: Vec3, direction: Vec3, center: Vec3, radius: real)
    requires Lawful(m) && Dot(direction, direction) == 1.0
    ensures IntersectSphere(m, origin, direction, center, radius).Some? <==> SphereAhead(origin, direction, center, radius)
    ensures forall t :: Epsilon < t && MeetsSphereAt(origin, direction, center, radius, t) ==>
      IntersectSphere(m, origin, direction, center, radius).Some? &&
      IntersectSphere(m, origin, direction, center, radius).value.t <= t
  {
    var r := IntersectSphere(m, origin, direction, center, radius);
    if r.Some? {
      HitOnSphere(m, origin, direction, center, radius);
    }
    forall t | Epsilon < t && MeetsSphereAt(origin, direction, center, radius, t)
      ensures r.Some? && r.value.t <= t
    {
      SphereRootIsHit(m, origin, direction, center, radius, t);
    }
  }

  /** A parameter beyond 1e-4 at which the ray meets the sphere is one of the
      two roots, so the test hits, no farther along than that parameter. */
  lemma SphereRootIsHit(m: Elementary, origin: Vec3, direction: Vec3, center: Vec3, radius: real, t: real)
    requires Lawful(m) && Dot(direction, direction) == 1.0
    requires Epsilon < t && MeetsSphereAt(origin, direction, center, radius, t)
    ensures IntersectSphere(m, origin, direction, center, radius).Some?
    ensures IntersectSphere(m, origin, direction, center, radius).value.t <= t
  {
    var b := HalfB(origin, direction, center);
    var disc := Discriminant(origin, direction, center, radius);
    SphereDiscriminant(origin, direction, center, radius, t);
    SqSign(t + b);
    var s := m.sqrt(disc);
    assert 0.0 <= s && Sq(s) == Sq(t + b);
    SquaresAgree(t + b, s);
    assert t == -b - s || t == -b + s;
    assert NearRoot(m, origin, direction, center, radius) == -b - s;
    assert FarRoot(m, origin, direction, center, radius) == -b + s;
  }

  /** Where the ray meets the sphere at `t`, the discriminant is `(t + b)²`. */
  lemma SphereDiscriminant(origin: Vec3, direction: Vec3, center: Vec3, radius: real, t: real)
    requires Dot(direction, direction) == 1.0
    requires MeetsSphereAt(origin, direction, center, radius, t)
    ensures Discriminant(origin, direction, center, radius) == Sq(t + HalfB(origin, direction, center))
  {
    var oc := Sub(origin, center);
    DotExpand(oc, direction, t);
    UnitQuadratic(t, Dot(oc, direction), Dot(oc, oc), Dot(direction, direction), Sq(radius), Dot(Add(oc, Scale(direction, t)), Add(oc, Scale(direction, t))));
    CompletedSquare(t, HalfB(origin, direction, center), Offset(origin, center, radius));
  }

  /** With `|d|² = 1`, `|oc + t·d|² = |oc|² + 2bt + t²|d|² = r²` is the
      quadratic `t² + 2bt + (|oc|² - r²) = 0`. */
  lemma UnitQuadratic(t: real, b: real, ococ: real, dd: real, r2: real, e: real)
    requires dd == 1.0
    requires e == ococ + 2.0 * t * b + Sq(t) * dd
    requires e == r2
    ensures Sq(t) + 2.0 * t * b + (ococ - r2) == 0.0
  {
  }

  /** `t² + 2bt + c = 0` makes `b² - c` the square `(t + b)²`. */
  lemma CompletedSquare(t: real, b: real, c: real)
    requires Sq(t) + 2.0 * t * b + c == 0.0
    ensures Sq(b) - c == Sq(t + b)
  {
    assert Sq(t + b) == Sq(t) + 2.0 * t * b + Sq(b);
  }

  /** Two numbers with equal squares, one of them non-negative, agree up to
      sign. */
  lemma SquaresAgree(x: real, s: real)
    requires 0.0 <= s && Sq(x) == Sq(s)
    ensures x == s || x == -s
  {
    assert (x - s) * (x + s) == Sq(x) - Sq(s);
    if x + s != 0.0 {
      ZeroProduct(x - s, x + s);
    }
  }

  /** For a unit direction, a hit lies on the sphere: its distance from the
      centre is the radius. */
  lemma HitOnSphere(m: Elementary, origin: Vec3, direction: Vec3, center: Vec3, radius: real)
    requires Lawful(m) && Dot(direction, direction) == 1.0
    requires IntersectSphere(m, origin, direction, center, radius).Some?
    ensures var p := IntersectSphere(m, origin, direction, center, radius).value.point;
      Dot(Sub(p, center), Sub(p, center)) == Sq(radius)
    ensures MeetsSphereAt(origin, direction, center, radius, IntersectSphere(m, origin, direction, center, radius).value.t)
  {
    var hit := IntersectSphere(m, origin, direction, center, radius).value;
    var oc := Sub(origin, center);
    var b, c := HalfB(origin, direction, center), Offset(origin, center, radius);
    var disc := Discriminant(origin, direction, center, radius);
    var s := m.sqrt(disc);
    var t := hit.t;
    assert Sub(hit.point, center) == Add(oc, Scale(direction, t));
    DotExpand(oc, direction, t);
    assert t == -b - s || t == -b + s;
    RootSolves(b, c, s, t);
  }

  /** `|a + t·d|² = |a|² + 2t(a·d) + t²|d|²`. */
  lemma DotExpand(a: Vec3, d: Vec3, t: real)
    ensures Dot(Add(a, Scale(d, t)), Add(a, Scale(d, t))) == Dot(a, a) + 2.0 * t * Dot(a, d) + Sq(t) * Dot(d, d)
  {
    var e := Scale(d, t);
    assert Dot(Add(a, e), Add(a, e)) == Dot(a, a) + 2.0 * Dot(a, e) + Dot(e, e);
    assert Dot(a, e) == t * Dot(a, d);
    ScaleDot(d, t);
  }

  /** A root `-b ± s` with `s² = b² - c` solves `t² + 2bt + c = 0`. */
  lemma RootSolves(b: real, c: real, s: real, t: real)
    requires Sq(s) == Sq(b) - c
    requires t == -b - s || t == -b + s
    ensures Sq(t) + 2.0 * t * b + c == 0.0
  {
    assert Sq(t) + 2.0 * t * b == Sq(t + b) - Sq(b);
    if t == -b - s {
      SqNeg(s);
    }
  }

  // Choosing what a ray sees.

  /** What a ray shows: nothing, the satellite, or the planet. */
  datatype Target = Background | Satellite(hit: Hit) | Planet(hit: Hit)

  /** Resolve the two hits: the background when both miss, the satellite when
      it is hit and the planet is missed or strictly farther, the planet
      otherwise. */
  function SelectHit(satHit: Option<Hit>, planetHit: Option<Hit>): (r: Target)
    ensures r.Background? <==> satHit.None? && planetHit.None?
    ensures r.Satellite? <==> satHit.Some? && (planetHit.None? || satHit.value.t < planetHit.value.t)
    ensures r.Satellite? ==> satHit == Some(r.hit)
    ensures r.Planet? ==> planetHit == Some(r.hit)
  {
    if planetHit.None? && satHit.None? then Background
    else if satHit.Some? && (planetHit.None? || satHit.value.t < planetHit.value.t) then Satellite(satHit.value)
    else if planetHit.Some? then Planet(planetHit.value)
    else Background
  }

  /** The chosen surface is the nearest one hit: no other hit is strictly
      closer. */
  lemma NearestHitWins(satHit: Option<Hit>, planetHit: Option<Hit>)
    ensures SelectHit(satHit, planetHit).Satellite? && planetHit.Some? ==>
      SelectHit(satHit, planetHit).hit.t < planetHit.value.t
    ensures SelectHit(satHit, planetHit).Planet? && satHit.Some? ==>
      SelectHit(satHit, planetHit).hit.t <= satHit.value.t
  {
  }

  /** When both surfaces are hit at the same distance, the planet is shown. */
  lemma TiesGoToPlanet(s: Hit, p: Hit)
    requires s.t == p.t
    ensures SelectHit(Some(s), Some(p)) == Planet(p)
  {
  }

  // Sphere marching against the planet.

  /** The outcome of one marching iteration. */
  datatype MarchStep = Found(hit: Hit) | Advance(t: real) | GiveUp

  /** One iteration at parameter `t`, whose point on the ray is `position`,
      against a planet seen through its radius lookup `radiusOf` (the surface
      radius in each direction): nudge forward by 0.1 when the point is at the
      planet's centre; report a hit when the point is within the tolerance of
      the surface; otherwise step by 70% of the distance, but at least half
      the tolerance, and give up once past the maximum distance. */
  function Step(m: Elementary, radiusOf: Vec3 -> real, settings: RenderSettings, t: real, position: Vec3): (s: MarchStep)
    requires Lawful(m)
    ensures Norm(m, position) < 0.00001 ==> s == Advance(t + 0.1)
    ensures s.Found? <==> Surface(m, radiusOf, position, settings.planetTolerance)
    ensures s.Found? ==> s.hit == Hit(t, position)
    ensures 0.00001 <= Norm(m, position) && s.Advance? ==>
      t + settings.planetTolerance * 0.5 <= s.t <= settings.maxDistance &&
      t + (Norm(m, position) - radiusOf(position)) * 0.7 <= s.t
    ensures s.GiveUp? <==>
      0.00001 <= Norm(m, position) && !Surface(m, radiusOf, position, settings.planetTolerance) &&
      t + Max((Norm(m, position) - radiusOf(position)) * 0.7, settings.planetTolerance * 0.5) > settings.maxDistance
  {
    var radius := Norm(m, position);
    if radius < 0.00001 then Advance(t + 0.1)
    else
      var distance := radius - radiusOf(position);
      if distance < settings.planetTolerance then Found(Hit(t, position))
      else
        var next := t + Max(distance * 0.7, settings.planetTolerance * 0.5);
        if next > settings.maxDistance then GiveUp else Advance(next)
  }

  /** A point the marcher accepts as on the surface: away from the centre and
      less than the tolerance above the surface radius in its direction. */
  predicate Surface(m: Elementary, radiusOf: Vec3 -> real, p: Vec3, tolerance: real)
    requires Lawful(m)
  {
    0.00001 <= Norm(m, p) && Norm(m, p) - radiusOf(p) < tolerance
  }

  /** A point the default marcher accepts as surface lies on the ray at or
      beyond its origin. */
  ghost predicate SurfaceAhead(m: Elementary, radiusOf: Vec3 -> real, origin: Vec3, direction: Vec3)
    requires Lawful(m)
  {
    exists t :: 0.0 <= t && Surface(m, radiusOf, Add(origin, Scale(direction, t)), DefaultSettings.planetTolerance)
  }

  /** The march from parameter `t` with `fuel` iterations left. A hit is a
      surface point on the ray; with a positive tolerance every iteration moves
      forward, so the hit is no nearer than `t`. */
  function MarchFrom(m: Elementary, radiusOf: Vec3 -> real, origin: Vec3, direction: Vec3, settings: RenderSettings, t: real, fuel: nat): (r: Option<Hit>)
    requires Lawful(m)
    decreases fuel
    ensures fuel == 0 ==> r.None?
    ensures r.Some? ==> r.value.point == Add(origin, Scale(direction, r.value.t)) && Surface(m, radiusOf, r.value.point, settings.planetTolerance)
    ensures r.Some? && 0.0 < settings.planetTolerance ==> t <= r.value.t
  {
    if fuel == 0 then None
    else match Step(m, radiusOf, settings, t, Add(origin, Scale(direction, t)))
      case Found(hit) => Some(hit)
      case Advance(next) => MarchFrom(m, radiusOf, origin, direction, settings, next, fuel - 1)
      case GiveUp => None
  }

  /** A march that is not at the centre and not at the surface, and whose
      next step would pass the maximum distance, gives up: no hit is found,
      however much fuel is left. */
  lemma PastMaxGivesUp(m: Elementary, radiusOf: Vec3 -> real, origin: Vec3, direction: Vec3, settings: RenderSettings, t: real, fuel: nat)
    requires Lawful(m)
    requires 0 < fuel
    requires 0.00001 <= Norm(m, Add(origin, Scale(direction, t)))
    requires settings.planetTolerance <= Norm(m, Add(origin, Scale(direction, t))) - radiusOf(Add(origin, Scale(direction, t)))
    requires t + Max((Norm(m, Add(origin, Scale(direction, t))) - radiusOf(Add(origin, Scale(direction, t)))) * 0.7,
                     settings.planetTolerance * 0.5) > settings.maxDistance
    ensures MarchFrom(m, radiusOf, origin, direction, settings, t, fuel) == None
  {
    assert Step(m, radiusOf, settings, t, Add(origin, Scale(direction, t))).GiveUp?;
  }

  /** The march from `t` with `fuel` iterations left ends in `result`. */
  predicate MarchesTo(m: Elementary, radiusOf: Vec3 -> real, origin: Vec3, direction: Vec3, settings: RenderSettings, t: real, fuel: nat, result: Option<Hit>)
    requires Lawful(m)
  {
    MarchFrom(m, radiusOf, origin, direction, settings, t, fuel) == result
  }

  /** The marching loop: at most `planet_steps` iterations from t = 0,
      nudging past the centre with `continue` and leaving with `break` once
      past the maximum distance. It finds exactly the hit the recursive march
      describes. */
  method MarchPlanet(m: Elementary, radiusOf: Vec3 -> real, origin: Vec3, direction: Vec3, settings: RenderSettings) returns (hit: Option<Hit>)
    requires Lawful(m)
    ensures hit == MarchFrom(m, radiusOf, origin, direction, settings, 0.0, settings.planetSteps)
  {
    ghost var march := MarchFrom(m, radiusOf, origin, direction, settings, 0.0, settings.planetSteps);
    var t := 0.0;
    var i := 0;
    while i < settings.planetSteps
      invariant 0 <= i <= settings.planetSteps
      invariant MarchesTo(m, radiusOf, origin, direction, settings, t, settings.planetSteps - i, march)
    {
      var position := Add(origin, Scale(direction, t));
      var radius := Norm(m, position);
      if radius < 0.00001 {
        t := t + 0.1;
        i := i + 1;
        continue;
      }
      var surfaceRadius := radiusOf(position);
      var distance := radius - surfaceRadius;
      if distance < settings.planetTolerance {
        return Some(Hit(t, position));
      }
      var step := Max(distance * 0.7, settings.planetTolerance * 0.5);
      t := t + step;
      i := i + 1;
      if t > settings.maxDistance {
        break;
      }
    }
    return None;
  }

  // Shading.

  /** The unit vector towards the light: the light's direction reversed and
      normalised. */
  function LightDirection(m: Elementary, light: Light): (l: Vec3)
    requires Lawful(m)
    ensures light.direction != Zero ==> Dot(l, l) == 1.0
  {
    var u := Normalize(m, light.direction);
    NegDot(u);
    Neg(u)
  }

  /** Reversing a vector keeps its squared length. */
  lemma NegDot(v: Vec3)
    ensures Dot(Neg(v), Neg(v)) == Dot(v, v)
  {
    DotSelf(v);
    DotSelf(Neg(v));
    SqNeg(v.x);
    SqNeg(v.y);
    SqNeg(v.z);
  }

  /** The mirror image of the light direction about the normal. */
  function Reflect(normal: Vec3, lightDir: Vec3): Vec3
  {
    Sub(Scale(normal, 2.0 * Dot(normal, lightDir)), lightDir)
  }

  /** About a unit normal, the reflection makes the same angle with the normal
      as the light direction does. */
  lemma ReflectMirrors(normal: Vec3, lightDir: Vec3)
    requires Dot(normal, normal) == 1.0
    ensures Dot(Reflect(normal, lightDir), normal) == Dot(lightDir, normal)
  {
    var k := 2.0 * Dot(normal, lightDir);
    assert Dot(Reflect(normal, lightDir), normal) == Dot(Scale(normal, k), normal) - Dot(lightDir, normal);
    ScaleAlong(normal, k);
  }

  /** `(k·n)·n = k (n·n)`. */
  lemma ScaleAlong(n: Vec3, k: real)
    ensures Dot(Scale(n, k), n) == k * Dot(n, n)
  {
  }

  /** The diffuse and specular factors of the Phong model at one point. */
  datatype Lighting = Lighting(diffuse: real, specular: real)

  /** The shadow gate: in shadow there is neither diffuse nor specular light;
      otherwise the diffuse factor is the cosine of the angle to the light,
      clamped at zero, and the specular factor the clamped cosine between the
      reflection and the view direction raised to the shininess. */
  function Illumination(m: Elementary, shadowed: bool, normal: Vec3, lightDir: Vec3, viewDir: Vec3, shininess: real): (l: Lighting)
    ensures shadowed ==> l.diffuse == 0.0 && l.specular == 0.0
    ensures !shadowed ==> 0.0 <= l.diffuse && Dot(normal, lightDir) <= l.diffuse
    ensures !shadowed && 0.0 <= Dot(normal, lightDir) ==> l.diffuse == Dot(normal, lightDir)
    ensures !shadowed && Dot(normal, lightDir) <= 0.0 ==> l.diffuse == 0.0
    ensures !shadowed ==> l.specular == m.pow(Max(Dot(Reflect(normal, lightDir), viewDir), 0.0), shininess)
  {
    if shadowed then Lighting(0.0, 0.0)
    else
      var diffuse := Max(Dot(normal, lightDir), 0.0);
      var reflect := Reflect(normal, lightDir);
      Lighting(diffuse, m.pow(Max(Dot(reflect, viewDir), 0.0), shininess))
  }

  /** The shaded colour: the base colour under ambient plus diffuse light,
      with the specular highlight added to every channel. */
  function Phong(material: Material, ambient: real, lighting: Lighting, intensity: real): Vec3
  {
    AddScalar(Scale(material.baseColor, ambient + lighting.diffuse * intensity), material.specular * lighting.specular * intensity)
  }

  /** In shadow only the ambient term is left. */
  lemma ShadowLeavesAmbient(m: Elementary, material: Material, ambient: real, normal: Vec3, lightDir: Vec3, viewDir: Vec3, intensity: real)
    ensures Phong(material, ambient, Illumination(m, true, normal, lightDir, viewDir, material.shininess), intensity)
         == Scale(material.baseColor, ambient)
  {
  }

  /** The haze factor of a point: its altitude above the base radius as a
      fraction of half that radius, clipped to [0, 1]. It is zero on or below
      the base sphere and one from one and a half base radii out. */
  function Haze(m: Elementary, position: Vec3, baseRadius: real): (h: real)
    requires Lawful(m) && baseRadius != 0.0
    ensures 0.0 <= h <= 1.0
    ensures 0.0 < baseRadius && Norm(m, position) <= baseRadius ==> h == 0.0
    ensures 0.0 < baseRadius && baseRadius * 1.5 <= Norm(m, position) ==> h == 1.0
  {
    var altitude := Norm(m, position) - baseRadius;
    var scale := baseRadius * 0.5;
    if 0.0 < baseRadius then
      QuotientAtMostZero(altitude, scale);
      QuotientAtLeastOne(altitude, scale);
      Clip(altitude / scale, 0.0, 1.0)
    else
      Clip(altitude / scale, 0.0, 1.0)
  }

  lemma QuotientAtMostZero(a: real, s: real)
    requires 0.0 < s
    ensures a <= 0.0 ==> a / s <= 0.0
  {
    if a < 0.0 {
      ProductPositive(-(a / s), s, -a);
    }
  }

  lemma QuotientAtLeastOne(a: real, s: real)
    requires 0.0 < s
    ensures s <= a ==> 1.0 <= a / s
  {
    if s <= a {
      var q := a / s;
      assert q * s == a;
      if q < 1.0 {
        ProductPositive(1.0 - q, s, s - a);
      }
    }
  }

  /** Blend a colour towards the sky colour: keep `1 - 0.3·haze` of it and
      add `0.15·haze` of the sky. */
  function Atmosphere(color: Vec3, haze: real): Vec3
  {
    Add(Scale(color, 1.0 - 0.3 * haze), Scale(SkyColor, 0.15 * haze))
  }

  /** Without haze the colour is unchanged. */
  lemma NoHazeKeepsColor(color: Vec3)
    ensures Atmosphere(color, 0.0) == color
  {
  }

  // Pixels.

  /** An 8-bit colour. */
  datatype Rgb = Rgb(r: int, g: int, b: int)

  /** One channel: clipped to [0, 1], scaled by 255 and truncated. */
  function Channel(c: real): (b: int)
    ensures 0 <= b <= 255
    ensures c <= 0.0 ==> b == 0
    ensures 1.0 <= c ==> b == 255
  {
    var scaled := Clip(c, 0.0, 1.0) * 255.0;
    Trunc(scaled)
  }

  function Quantize(c: Vec3): (p: Rgb)
    ensures 0 <= p.r <= 255 && 0 <= p.g <= 255 && 0 <= p.b <= 255
  {
    Rgb(Channel(c.x), Channel(c.y), Channel(c.z))
  }

  /** The pixel centre `y + 0.5` of a row maps strictly inside (-1, 1)
      through `1 - 2(y + 0.5)/height`, and likewise for columns. */
  lemma PixelCentreInside(y: nat, n: nat)
    requires y < n
    ensures -1.0 < 1.0 - 2.0 * (y as real + 0.5) / n as real < 1.0
  {
    var a := y as real + 0.5;
    QuotientInUnit(a, n as real);
    assert 2.0 * a / n as real == 2.0 * (a / n as real);
  }

  /** A quotient of a positive number by a larger one is in (0, 1). */
  lemma QuotientInUnit(a: real, n: real)
    requires 0.0 < a < n
    ensures 0.0 < a / n < 1.0
  {
    var q := a / n;
    assert q * n == a;
    if q <= 0.0 {
      MulNonneg(-q, n);
    }
    if 1.0 <= q {
      ScaleMonotone(n, 1.0, q);
    }
  }

  /** The camera frame a frame is rendered from, read once before the pixel
      loops: the eye position and the forward, right and up vectors. */
  datatype Eye = Eye(origin: Vec3, forward: Vec3, right: Vec3, up: Vec3)

  /** The camera's current frame. */
  function EyeOf(m: Elementary, camera: Cameras.Camera): (e: Eye)
    requires Lawful(m)
    reads camera
    ensures e.origin == camera.Position(m) && Dot(e.forward, e.forward) == 1.0
    ensures e.right == Cross(e.forward, UnitZ) && e.up == Cross(e.right, e.forward)
  {
    Eye(camera.Position(m), camera.Forward(m), camera.Right(m), camera.Up(m))
  }

  /** The sample direction through pixel `(x, y)`: forward, plus `right` and
      `up` weighted by the pixel centre's normalised device coordinates
      (scaled by tan(fov/2), and by the aspect ratio horizontally), then
      normalised. */
  function PrimaryRay(m: Elementary, eye: Eye, settings: RenderSettings, x: nat, y: nat): (d: Vec3)
    requires Lawful(m) && x < settings.width && y < settings.height
    ensures d == Zero || Dot(d, d) == 1.0
  {
    var aspect := settings.width as real / settings.height as real;
    var tanHalfFov := m.tan(settings.fov / 2.0);
    var ndcY := (1.0 - 2.0 * (y as real + 0.5) / settings.height as real) * tanHalfFov;
    var ndcX := (2.0 * (x as real + 0.5) / settings.width as real - 1.0) * tanHalfFov * aspect;
    Normalize(m, Add(Add(eye.forward, Scale(eye.right, ndcX)), Scale(eye.up, ndcY)))
  }

  /** The primary rays of the whole image: row `y`, column `x` holds the
      ray through pixel `(x, y)`. */
  function ImageRays(m: Elementary, eye: Eye, settings: RenderSettings): (rays: seq<seq<Vec3>>)
    requires Lawful(m)
    ensures |rays| == settings.height
    ensures forall y :: 0 <= y < |rays| ==> |rays[y]| == settings.width
  {
    seq(settings.height, y =>
      seq(settings.width, x =>
        if 0 <= y < settings.height && 0 <= x < settings.width then PrimaryRay(m, eye, settings, x, y) else Zero))
  }

  /** Each of those rays is the primary ray through its pixel. */
  lemma ImageRaysThroughPixels(m: Elementary, eye: Eye, settings: RenderSettings, x: nat, y: nat)
    requires Lawful(m) && x < settings.width && y < settings.height
    ensures ImageRays(m, eye, settings)[y][x] == PrimaryRay(m, eye, settings, x, y)
  {
    var row := seq(settings.width, x =>
      if 0 <= y < settings.height && 0 <= x < settings.width then PrimaryRay(m, eye, settings, x, y) else Zero);
    assert ImageRays(m, eye, settings)[y] == row;
    assert row[x] == PrimaryRay(m, eye, settings, x, y);
  }

  // The scene.

  const DefaultSatelliteRadius: real := 0.25

  class Scene {
    const planet: Planets.Planet
    const orbit: Orbits.OrbitSimulator
    const light: Light
    const satelliteRadius: real

    /** A scene over a planet, an orbit and a light, with the satellite's
        radius. */
    constructor (planet: Planets.Planet, orbit: Orbits.OrbitSimulator, light: Light, satelliteRadius: real)
      ensures this.planet == planet && this.orbit == orbit && this.light == light && this.satelliteRadius == satelliteRadius
    {
      this.planet := planet;
      this.orbit := orbit;
      this.light := light;
      this.satelliteRadius := satelliteRadius;
    }

    /** A scene with the default satellite radius, 0.25. */
    constructor Default(planet: Planets.Planet, orbit: Orbits.OrbitSimulator, light: Light)
      ensures this.planet == planet && this.orbit == orbit && this.light == light
      ensures satelliteRadius == DefaultSatelliteRadius
    {
      this.planet := planet;
      this.orbit := orbit;
      this.light := light;
      satelliteRadius := DefaultSatelliteRadius;
    }

    /** What rendering needs: a planet with a non-empty grid and a non-zero
        base radius, and a satellite of non-zero radius. */
    predicate Valid()
      reads planet
    {
      planet.Sampleable() && planet.config.baseRadius != 0.0 && satelliteRadius != 0.0
    }

    /** The same demands on the planet's height field as a value. */
    predicate Ready(field: Planets.HeightField)
    {
      Planets.FieldShaped(field) && field.config.baseRadius != 0.0 && satelliteRadius != 0.0
    }

    /** Whether the satellite blocks the light from a point: a shadow ray
        from just off the point towards the light meets its sphere. For a
        light with a direction, that is exactly when a point of the
        satellite's sphere lies ahead on the shadow ray. */
    function ShadowedBySatellite(m: Elementary, point: Vec3, satPosition: Vec3): (shadowed: bool)
      requires Lawful(m)
      ensures light.direction != Zero ==>
        (shadowed <==> SphereAhead(Add(point, Scale(LightDirection(m, light), 0.01)), LightDirection(m, light), satPosition, satelliteRadius))
    {
      var lightDir := LightDirection(m, light);
      var start := Add(point, Scale(lightDir, 0.01));
      if light.direction != Zero then
        IntersectSphereFindsSphereAhead(m, start, lightDir, satPosition, satelliteRadius);
        IntersectSphere(m, start, lightDir, satPosition, satelliteRadius).Some?
      else
        IntersectSphere(m, start, lightDir, satPosition, satelliteRadius).Some?
    }

    /** Whether the planet blocks the light from a point: a shadow ray from
        just off the point towards the light, marched with the default
        settings (not the frame's), finds the surface. When it does, a
        surface point lies on the shadow ray at or beyond its start. */
    function ShadowedByPlanet(m: Elementary, field: Planets.HeightField, point: Vec3): (shadowed: bool)
      requires Lawful(m) && Planets.FieldShaped(field)
      ensures shadowed ==> SurfaceAhead(m, Planets.RadiusOf(m, field), Add(point, Scale(LightDirection(m, light), 0.01)), LightDirection(m, light))
    {
      var lightDir := LightDirection(m, light);
      var start := Add(point, Scale(lightDir, 0.01));
      var hit := MarchFrom(m, Planets.RadiusOf(m, field), start, lightDir, DefaultSettings, 0.0, DefaultSettings.planetSteps);
      if hit.Some? then
        assert 0.0 <= hit.value.t && Surface(m, Planets.RadiusOf(m, field), Add(start, Scale(lightDir, hit.value.t)), DefaultSettings.planetTolerance);
        true
      else
        false
    }

    /** The colour of a planet hit: Phong shading with ambient 0.08 at the
        bump-mapped normal, then haze. In shadow only the hazed ambient colour
        remains. */
    function ShadePlanetHit(m: Elementary, field: Planets.HeightField, direction: Vec3, hit: Hit, shadowed: bool): (c: Vec3)
      requires Lawful(m) && Ready(field) && hit.point != Zero
      ensures shadowed ==> c == Atmosphere(Scale(PlanetMaterial.baseColor, 0.08), Haze(m, hit.point, field.config.baseRadius))
    {
      var normal := Planets.SurfaceNormal(m, field, hit.point);
      var lightDir := LightDirection(m, light);
      var lighting := Illumination(m, shadowed, normal, lightDir, Neg(direction), PlanetMaterial.shininess);
      ShadowLeavesAmbient(m, PlanetMaterial, 0.08, normal, lightDir, Neg(direction), light.intensity);
      Atmosphere(Phong(PlanetMaterial, 0.08, lighting, light.intensity), Haze(m, hit.point, field.config.baseRadius))
    }

    /** The colour of a satellite hit: Phong shading with ambient 0.05 at the
        sphere normal. In shadow only the ambient colour remains. */
    function ShadeSphereHit(m: Elementary, direction: Vec3, hit: Hit, satPosition: Vec3, shadowed: bool): (c: Vec3)
      requires Lawful(m) && satelliteRadius != 0.0
      ensures shadowed ==> c == Scale(SatelliteMaterial.baseColor, 0.05)
    {
      var normal := Div(Sub(hit.point, satPosition), satelliteRadius);
      var lightDir := LightDirection(m, light);
      var lighting := Illumination(m, shadowed, normal, lightDir, Neg(direction), SatelliteMaterial.shininess);
      ShadowLeavesAmbient(m, SatelliteMaterial, 0.05, normal, lightDir, Neg(direction), light.intensity);
      Phong(SatelliteMaterial, 0.05, lighting, light.intensity)
    }

    /** The colour a ray sees: space when it misses both bodies, the shaded
        satellite when that is the nearer hit, the shaded planet otherwise. */
    function RayColor(m: Elementary, field: Planets.HeightField, origin: Vec3, direction: Vec3, satPosition: Vec3, settings: RenderSettings): (c: Vec3)
      requires Lawful(m) && Ready(field)
      ensures (IntersectSphere(m, origin, direction, satPosition, satelliteRadius).None? &&
               MarchFrom(m, Planets.RadiusOf(m, field), origin, direction, settings, 0.0, settings.planetSteps).None?) ==> c == SpaceColor
    {
      var satHit := IntersectSphere(m, origin, direction, satPosition, satelliteRadius);
      var planetHit := MarchFrom(m, Planets.RadiusOf(m, field), origin, direction, settings, 0.0, settings.planetSteps);
      match SelectHit(satHit, planetHit)
      case Background => SpaceColor
      case Satellite(hit) => ShadeSphereHit(m, direction, hit, satPosition, ShadowedByPlanet(m, field, hit.point))
      case Planet(hit) =>
        NormPositive(m, hit.point);
        ShadePlanetHit(m, field, direction, hit, ShadowedBySatellite(m, hit.point, satPosition))
    }

    /** Tracing one ray: intersect the satellite, run the marching loop
        against the planet, and shade whichever is nearer. */
    method TraceRay(m: Elementary, field: Planets.HeightField, origin: Vec3, direction: Vec3, satPosition: Vec3, settings: RenderSettings) returns (color: Vec3)
      requires Lawful(m) && Ready(field)
      ensures color == RayColor(m, field, origin, direction, satPosition, settings)
    {
      var satHit := IntersectSphere(m, origin, direction, satPosition, satelliteRadius);
      var planetHit := MarchPlanet(m, Planets.RadiusOf(m, field), origin, direction, settings);
      match SelectHit(satHit, planetHit)
      case Background =>
        color := SpaceColor;
      case Satellite(hit) =>
        color := ShadeSphereHit(m, direction, hit, satPosition, ShadowedByPlanet(m, field, hit.point));
      case Planet(hit) =>
        NormPositive(m, hit.point);
        color := ShadePlanetHit(m, field, direction, hit, ShadowedBySatellite(m, hit.point, satPosition));
    }

    /** Proof helper for the pixel loops, not an operation of the renderer:
        `RayColor` from one eye position against one height field and
        satellite position, as a function of the direction, so that rows of
        colours can be specified with `Rows.Collect`. */
    function Shader(m: Elementary, field: Planets.HeightField, origin: Vec3, satPosition: Vec3, settings: RenderSettings): (shade: Vec3 --> Vec3)
      requires Lawful(m) && Ready(field)
      ensures forall d :: shade.requires(d)
      ensures forall d :: shade(d) == RayColor(m, field, origin, d, satPosition, settings)
    {
      d requires Lawful(m) && Ready(field) => RayColor(m, field, origin, d, satPosition, settings)
    }

    /** Trace the primary rays of one row, left to right, from the eye
        position. */
    method TraceRow(m: Elementary, field: Planets.HeightField, origin: Vec3, rays: seq<Vec3>, satPosition: Vec3, settings: RenderSettings) returns (row: seq<Vec3>)
      requires Lawful(m) && Ready(field)
      ensures row == Rows.Collect(Shader(m, field, origin, satPosition, settings), rays, |rays|)
    {
      ghost var shade := Shader(m, field, origin, satPosition, settings);
      row := [];
      var x := 0;
      while x < |rays|
        invariant 0 <= x <= |rays|
        invariant row == Rows.Collect(shade, rays, x)
      {
        var color := TraceRay(m, field, origin, rays[x], satPosition, settings);
        assert color == shade(rays[x]);
        row := row + [color];
        x := x + 1;
      }
    }

    /** Trace every pixel of the image, row by row, from one eye position
        against one height field and satellite position. */
    method TraceImage(m: Elementary, field: Planets.HeightField, origin: Vec3, rays: seq<seq<Vec3>>, width: nat, satPosition: Vec3, settings: RenderSettings) returns (image: array2<Vec3>)
      requires Lawful(m) && Ready(field)
      requires forall y :: 0 <= y < |rays| ==> |rays[y]| == width
      ensures fresh(image) && image.Length0 == |rays| && image.Length1 == width
      ensures forall y, x :: 0 <= y < |rays| && 0 <= x < width ==>
        image[y, x] == RayColor(m, field, origin, rays[y][x], satPosition, settings)
    {
      image := new Vec3[|rays|, width];
      var y := 0;
      while y < |rays|
        invariant 0 <= y <= |rays|
        invariant forall r, x :: 0 <= r < y && 0 <= x < width ==>
          image[r, x] == RayColor(m, field, origin, rays[r][x], satPosition, settings)
      {
        var row := TraceRow(m, field, origin, rays[y], satPosition, settings);
        Rows.CollectPointwise(Shader(m, field, origin, satPosition, settings), rays[y], width);
        Rows.StoreRow(image, y, row);
        y := y + 1;
      }
    }

    /** Render one frame: read the camera frame and the satellite's position,
        then advance the orbit by `dt` exactly once, then trace every pixel
        against the position read before the update, and finally clip and
        scale to bytes. A zero-height image fails (a division by zero)
        before the orbit moves. */
    method Render(m: Elementary, camera: Cameras.Camera, settings: RenderSettings, dt: real) returns (pixels: Option<array2<Rgb>>)
      requires Lawful(m) && Valid()
      modifies orbit
      ensures settings.height == 0 ==> pixels.None? && orbit.params == old(orbit.params) && orbit.angle == old(orbit.angle)
      ensures settings.height != 0 ==> orbit.params == old(orbit.params)
      ensures settings.height != 0 ==> orbit.angle == Orbits.Advanced(old(orbit.angle), old(orbit.params.angularVelocity), dt)
      ensures settings.height != 0 ==> pixels.Some? && fresh(pixels.value)
      ensures pixels.Some? ==> pixels.value.Length0 == settings.height && pixels.value.Length1 == settings.width
      ensures pixels.Some? ==> forall y, x :: 0 <= y < settings.height && 0 <= x < settings.width ==>
        pixels.value[y, x] == Quantize(RayColor(m, old(planet.Field()), old(EyeOf(m, camera)).origin,
                                                ImageRays(m, old(EyeOf(m, camera)), settings)[y][x], old(orbit.Position(m)), settings))
    {
      if settings.height == 0 {
        return None;
      }
      var field := planet.Field();
      var eye := EyeOf(m, camera);
      var satPosition := orbit.Position(m);
      orbit.Update(dt);
      var rays := ImageRays(m, eye, settings);
      var image := TraceImage(m, field, eye.origin, rays, settings.width, satPosition, settings);
      var bytes := QuantizeImage(image);
      return Some(bytes);
    }
  }

  /** A point the marcher accepts is away from the centre, so it has a
      direction. */
  lemma NormPositive(m: Elementary, p: Vec3)
    requires Lawful(m) && 0.00001 <= Norm(m, p)
    ensures p != Zero
  {
  }

  /** The final clip and scale: every pixel of the result is the quantised
      colour of the same pixel of the image. */
  method QuantizeImage(image: array2<Vec3>) returns (bytes: array2<Rgb>)
    ensures fresh(bytes) && bytes.Length0 == image.Length0 && bytes.Length1 == image.Length1
    ensures forall y, x :: 0 <= y < image.Length0 && 0 <= x < image.Length1 ==> bytes[y, x] == Quantize(image[y, x])
  {
    bytes := new Rgb[image.Length0, image.Length1];
    var y := 0;
    while y < image.Length0
      invariant 0 <= y <= image.Length0
      invariant forall r, x :: 0 <= r < y && 0 <= x < image.Length1 ==> bytes[r, x] == Quantize(image[r, x])
    {
      var x := 0;
      while x < image.Length1
        invariant 0 <= x <= image.Length1
        invariant forall r, c :: 0 <= r < y && 0 <= c < image.Length1 ==> bytes[r, c] == Quantize(image[r, c])
        invariant forall c :: 0 <= c < x ==> bytes[y, c] == Quantize(image[y, c])
      {
        bytes[y, x] := Quantize(image[y, x]);
        x := x + 1;
      }
      y := y + 1;
    }
  }
}
