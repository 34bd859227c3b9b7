# satellite_sim in Dafny

A model of the simulation and rendering core of `satellite_sim`, a small
Python visualiser of a satellite circling a procedurally generated planet.
The model follows the program file by file:

- `orbit.dfy` (module `Orbits`): the `OrbitSimulator` that keeps the
  satellite's angle on a circular orbit, with its position and velocity.
- `camera.dfy` (module `Cameras`): the turntable `Camera` with yaw, pitch,
  distance and target; its viewing frame and 4×4 view matrix.
- `planet.dfy` (module `Planets`): the `Planet` whose height field is
  generated from fractal noise and craters on a latitude × longitude grid,
  and the surface radius and bump-mapped normal it gives in any direction.
- `renderer.dfy` (module `Renderer`): the CPU ray tracer `Scene`. It
  intersects the satellite sphere analytically and marches the planet's
  surface. Shading is Phong, gated by shadows, with haze, and the image is
  quantised to bytes.
- `physics.dfy` (module `Physics`): the planar two-body leapfrog integrator
  and the orbital elements derived from a position and a velocity.
- `durations.dfy` (module `Durations`): the formatting of a duration as
  days, hours, minutes and seconds.

Four helper modules support these:

- `RealMath`: π, Python's float `%`, `int()`, `min`/`max`/`clip`, and
  square-and-product lemmas.
- `Vectors`: the three-component vectors.
- `Options`: an `Option` type.
- `Rows`: building one row of a grid from a per-element function, then
  storing it.

Arithmetic is exact real arithmetic. The transcendental functions (`sqrt`,
`sin`, `cos`, `tan`, `acos`, `atan2`, `exp`, `pow`) are fields of a value of
type `RealMath.Elementary` that every operation needing them takes as a
parameter. The predicate `Lawful` states the only laws the proofs use:

- a square root is non-negative and squares back;
- sin² + cos² = 1;
- acos maps [-1, 1] into [0, π].

The haversine distance between craters also needs the laws in `TrigLawful`:

- sin 0 = 0;
- cos is non-negative on [-π/2, π/2];
- atan2 maps a non-negative first argument into [0, π], and (0, x) to 0 for positive x.

The random draws of `Planet.generate` are a `Draws` value: four phase pairs,
then the craters. Its ranges are stated by `WellFormed`.

Objects whose fields the program updates in place are classes:

- `Orbits.OrbitSimulator`;
- `Cameras.Camera`;
- `Planets.Planet` (the height field is an `array2<real>`);
- `Physics.OrbitSimulator`;
- `Renderer.Scene`.

Each loop of the program is a method with invariants, proved equal to a
specification function:

- the octave loop;
- the crater loop;
- the grid loops of `generate`;
- the marching loop;
- the pixel loops of `render`.

The lookups `radius_at_direction` and `normal_at_direction` read the height
field as a value, `Planets.HeightField`, taken by `Planet.Field()`. The
marcher (`Renderer.Step`, `Renderer.MarchFrom`, `Renderer.MarchPlanet`) sees
the planet only through `radius_at_direction`, which it receives as a
function value, `Planets.RadiusOf`.

## Model

| member | source | states |
|---|---|---|
| RealMath.WrapAngle | satellite_sim/orbit.py:25 | Python's `% (2π)`: the result is in [0, 2π), differs from the argument by whole turns, and leaves an angle already in [0, 2π) unchanged |
| RealMath.Trunc | satellite_sim/planet.py:79 | `int()` truncates toward zero: for x ≥ 0 the result is the floor, for x ≤ 0 it is the ceiling |
| RealMath.Clip | satellite_sim/planet.py:35 | `np.clip`: the result is within the bounds, equals the argument inside them, and is the violated bound outside |
| Vectors.Norm | satellite_sim/renderer.py:161 | the length is non-negative, squares to the squared length, and is zero exactly for the zero vector |
| Vectors.Normalize | satellite_sim/renderer.py:72 | a non-zero vector normalises to squared length 1 |
| Orbits.OrbitSimulator.constructor | satellite_sim/orbit.py:20-22 | a new orbit keeps the given parameters and starts at angle 0 |
| Orbits.OrbitSimulator.Update | satellite_sim/orbit.py:24-25 | the angle becomes the old angle advanced by ω·dt, wrapped into [0, 2π); the parameters are unchanged |
| Orbits.UpdatesCompose | satellite_sim/orbit.py:24-25 | two updates by dt1 and dt2 land on the same angle as one update by dt1 + dt2 |
| Orbits.BackwardsHalfTurn | satellite_sim/orbit.py:25 | with a negative angular velocity the angle still wraps into [0, 2π): half a turn backwards from 0 gives π |
| Orbits.TurnAndAHalf | satellite_sim/orbit.py:25 | one and a half turns forwards from 0 wrap to exactly π |
| Orbits.OrbitSimulator.SetRadius | satellite_sim/orbit.py:27-28 | the radius becomes max(radius, 1.5), so it is never below 1.5 and a radius of at least 1.5 is kept as given; the angle is unchanged |
| Orbits.OrbitSimulator.SetSpeed | satellite_sim/orbit.py:30-31 | only the angular velocity changes, to the given value |
| Orbits.OrbitSimulator.SetAngle | satellite_sim/orbit.py:33-34 | the angle becomes the wrapped argument, which is the argument itself when already in [0, 2π); the parameters are unchanged |
| Orbits.OrbitSimulator.Position | satellite_sim/orbit.py:36-39 | the satellite lies in the z = 0 plane on the circle of the orbit's radius |
| Orbits.OrbitSimulator.Velocity | satellite_sim/orbit.py:41-44 | the velocity is the position turned a quarter turn and scaled by ω: tangent to the orbit, with speed² = (r·ω)² |
| Orbits.OrbitSimulator.Parameters | satellite_sim/orbit.py:46-47 | the triple is (radius, angular velocity, angle), and the angle is in [0, 2π) |
| Cameras.Camera.Default | satellite_sim/camera.py:15-18 | the default camera is 6 units away, yaw 0, pitch 20°, looking at the origin |
| Cameras.Camera.constructor | satellite_sim/camera.py:15-18 | the fields are stored as given, unchecked |
| Cameras.Camera.Copy | satellite_sim/camera.py:20-21 | a fresh camera with equal fields; the target is a value, so the copies never share it |
| Cameras.Camera.Forward | satellite_sim/camera.py:23-31 | the viewing direction is a unit vector whose height is sin(pitch) |
| Cameras.Camera.Right | satellite_sim/camera.py:33-36 | right = forward × z: horizontal, orthogonal to forward, with squared length cos²(pitch) |
| Cameras.Camera.HorizontalPart | satellite_sim/camera.py:33-36 | the horizontal part of forward has squared length cos²(pitch) |
| Cameras.Camera.Up | satellite_sim/camera.py:38-40 | up = right × forward, orthogonal to both |
| Cameras.Camera.Position | satellite_sim/camera.py:42-43 | the eye lies behind the target along forward, at exactly the camera's distance |
| Cameras.Camera.Orbit | satellite_sim/camera.py:45-47 | the yaw wraps into [0, 2π) and the pitch is clamped to ±80°; distance and target are unchanged |
| Cameras.Camera.Zoom | satellite_sim/camera.py:49-50 | the distance becomes distance·factor clamped to [1.5, 50]; the other fields are unchanged |
| Cameras.Camera.Pan | satellite_sim/camera.py:52-55 | the target moves by dx along right and dy along world z, so its height changes by exactly dy; the other fields are unchanged |
| Cameras.Camera.ViewMatrix | satellite_sim/camera.py:57-67 | rows right, up and -forward over (0, 0, 0, 1); each row's translation cancels the row applied to the eye, so the eye maps to the origin |
| Cameras.LookAt | satellite_sim/camera.py:62-67 | the identity matrix with the three axis rows written in and each translation equal to -row·eye |
| Cameras.SetRow | satellite_sim/camera.py:63-66 | writes one row and its translation and leaves the other rows unchanged |
| Planets.PolarGrid | satellite_sim/planet.py:114-117 | `lat_steps` latitudes from -π/2 up to π/2 and `lon_steps` longitudes from 0 within [0, 2π), each the evenly spaced `linspace` value |
| Planets.LatInRange | satellite_sim/planet.py:28 | every latitude of the grid is within [-π/2, π/2] |
| Planets.LonInRange | satellite_sim/planet.py:29 | every longitude of the grid, `endpoint=False`, is within [0, 2π) |
| Planets.FbmNoise | satellite_sim/planet.py:37-50 | the octave loop, with frequency doubling and amplitude halving, computes the normalised sum of the four octaves |
| Planets.WaveBounded | satellite_sim/planet.py:44-46 | the wave of one octave lies in [-1, 1] |
| Planets.OctaveBounded | satellite_sim/planet.py:44-46 | an octave's contribution is bounded by its amplitude |
| Planets.FbmSumBounded | satellite_sim/planet.py:40-48 | the first k octaves sum to at most the sum of their amplitudes in magnitude |
| Planets.FbmBounded | satellite_sim/planet.py:37-50 | the normalised noise lies in [-1, 1] |
| Planets.CraterFloor | satellite_sim/planet.py:53-62 | the running minimum starting from zero never raises the surface |
| Planets.CraterFloorIsMinimum | satellite_sim/planet.py:53-62 | the crater field is the deepest dent, not their sum: at most every dent, and either zero or one of the dents |
| Planets.CraterField | satellite_sim/planet.py:52-63 | the crater loop computes the running minimum of zero and every crater's dent |
| Planets.AngularDistanceBounded | satellite_sim/planet.py:65-74 | between latitudes in [-π/2, π/2] the haversine distance lies in [0, 2π], its haversine term being non-negative |
| Planets.CentreDistanceZero | satellite_sim/planet.py:65-74 | a point is at distance 0 from itself, so a crater is deepest at its centre |
| Planets.CellHeight | satellite_sim/planet.py:34-35 | a height is within [-1, 1] |
| Planets.CellHeightAtMost | satellite_sim/planet.py:34-35 | a height never exceeds 0.7, because craters only lower the surface and the noise is at most 1 |
| Planets.ComputeCell | satellite_sim/planet.py:32-35 | one grid point's height is the clipped 70/30 mix of the octave loop and the crater loop |
| Planets.RowHeights | satellite_sim/planet.py:30-35 | one row of the grid holds, in order, each longitude's cell height |
| Planets.FillRow | satellite_sim/planet.py:30-35 | row i of the height array gets the cell heights at its latitude and every longitude; the other rows are untouched |
| Planets.Planet.constructor | satellite_sim/planet.py:22-24 | the given configuration, or the default when absent; a fresh all-zero height field of grid shape |
| Planets.Planet.Generate | satellite_sim/planet.py:26-35 | a fresh height field of grid shape, with every cell in [-1, 1] and equal to the cell height at its grid latitude and longitude |
| Planets.Planet.HeightMap | satellite_sim/planet.py:111-112 | a fresh array with the same shape and heights, so writing to it leaves the planet unchanged |
| Planets.Planet.Field | satellite_sim/planet.py:19-24 | the height field as a value, cell by cell; shaped and bounded whenever the array is |
| Planets.Colatitude | satellite_sim/planet.py:77 | the polar angle of a non-zero direction is in [0, π] |
| Planets.Azimuth | satellite_sim/planet.py:78 | the azimuth, wrapped with `%`, is in [0, 2π) |
| Planets.LatCoord | satellite_sim/planet.py:87 | the fractional row is within [0, lat_steps - 1] |
| Planets.LonCoord | satellite_sim/planet.py:88 | the fractional column is within [0, lon_steps) |
| Planets.LatIndex | satellite_sim/planet.py:79 | the truncated row is a valid row index and the greatest whole number at most the fractional row |
| Planets.LonIndex | satellite_sim/planet.py:80 | the column is a valid index and equals the truncated fractional column: the `% lon_steps` never changes it |
| Planets.BilinearCell | satellite_sim/planet.py:87-94 | the four corners are valid indices; the next row clamps only at the last row; the next column wraps; the weights are the fractional parts in [0, 1) |
| Planets.SurfaceRadiusBounds | satellite_sim/planet.py:76-82 | with heights in [-1, 1], the surface radius lies within base_radius·(1 ± height_scale) |
| Planets.SurfaceNormal | satellite_sim/planet.py:84-109 | the normal is a unit vector (or zero where the tilt cancels it); with height_scale 0 it is the radial direction |
| Planets.Tilt | satellite_sim/planet.py:101-109 | the tilted normal is normalised, and a zero height scale leaves a unit normal unchanged |
| Renderer.IntersectSphere | satellite_sim/renderer.py:175-195 | there is no hit exactly when the discriminant is negative or both roots are ≤ 1e-4; otherwise the near root when beyond 1e-4, else the far root, with the hit point on the ray |
| Renderer.NearRootFirst | satellite_sim/renderer.py:188-195 | a ray from (0, 0, -10) along +z meets the unit sphere at t = 9, the near root, at (0, 0, -1) |
| Renderer.OffsetRayMisses | satellite_sim/renderer.py:182-187 | a ray from (5, 0, -10) along +z misses the unit sphere: the discriminant is negative |
| Renderer.SphereRootIsHit | satellite_sim/renderer.py:182-195 | for a unit direction, any point of the sphere beyond 1e-4 along the ray makes the intersection succeed with a t no larger than that point's |
| Renderer.IntersectSphereFindsSphereAhead | satellite_sim/renderer.py:175-195 | for a unit direction, there is a hit exactly when the sphere has a point on the ray beyond 1e-4, and the hit is the nearest such point |
| Renderer.HitOnSphere | satellite_sim/renderer.py:182-195 | for a unit direction the hit point lies on the sphere, at squared distance r² from the centre |
| Renderer.RootSolves | satellite_sim/renderer.py:185-191 | both roots -b ± √disc solve t² + 2bt + c = 0 |
| Renderer.SelectHit | satellite_sim/renderer.py:89-98 | background exactly when both miss; the satellite exactly when it is hit strictly before the planet or the planet is missed; otherwise the planet's hit |
| Renderer.NearestHitWins | satellite_sim/renderer.py:92-96 | the satellite is shown only when strictly nearer than a planet hit, and the planet only when no farther than a satellite hit |
| Renderer.TiesGoToPlanet | satellite_sim/renderer.py:92-96 | at equal distances the planet is shown |
| Renderer.Step | satellite_sim/renderer.py:160-172 | one marching iteration: at the centre (norm below 1e-5) it always advances by exactly 0.1; it reports a hit exactly when the point is a surface point, and the hit is the current point; a non-centre advance moves by at least half the tolerance and at least 70% of the height above the surface, and stays within the maximum distance; it gives up exactly when the point is off-centre, above the surface, and its step would pass the maximum distance |
| Renderer.MarchFrom | satellite_sim/renderer.py:152-173 | without iterations left there is no hit; a hit is a point of the ray within the tolerance of the surface, and no nearer than the starting parameter |
| Renderer.PastMaxGivesUp | satellite_sim/renderer.py:169-173 | a march at an off-centre point above the surface whose step passes the maximum distance returns no hit, whatever fuel is left |
| Renderer.MarchPlanet | satellite_sim/renderer.py:152-173 | the marching loop, with its `continue` and `break`, returns exactly the recursive march's hit |
| Renderer.NormPositive | satellite_sim/renderer.py:162-168 | a point the marcher accepts is not the centre |
| Renderer.LightDirection | satellite_sim/renderer.py:110 | the direction towards a light with a non-zero direction is a unit vector |
| Renderer.ReflectMirrors | satellite_sim/renderer.py:117 | about a unit normal the reflected light makes the same angle with the normal as the incoming light |
| Renderer.Illumination | satellite_sim/renderer.py:112-118 | in shadow there is neither diffuse nor specular light; otherwise the diffuse factor is n·l clamped below at 0, and the specular factor is max(reflect·view, 0) to the shininess |
| Renderer.ShadowLeavesAmbient | satellite_sim/renderer.py:119-123 | in shadow the Phong colour is the base colour times the ambient factor |
| Renderer.Haze | satellite_sim/renderer.py:208-210 | the haze is within [0, 1]: 0 at or below the base radius and 1 from 1.5 times the base radius up |
| Renderer.NoHazeKeepsColor | satellite_sim/renderer.py:212 | without haze the colour is unchanged |
| Renderer.Channel | satellite_sim/renderer.py:76-77 | a byte in [0, 255]: 0 for values ≤ 0 and 255 for values ≥ 1 |
| Renderer.Quantize | satellite_sim/renderer.py:76-77 | all three channels are bytes |
| Renderer.QuantizeImage | satellite_sim/renderer.py:76-77 | a fresh image of the same shape, every pixel the quantised colour |
| Renderer.PixelCentreInside | satellite_sim/renderer.py:68 | every pixel centre maps strictly inside (-1, 1) |
| Renderer.EyeOf | satellite_sim/renderer.py:58-61 | the frame read from the camera: its eye position, a unit forward, right = forward × z and up = right × forward |
| Renderer.PrimaryRay | satellite_sim/renderer.py:68-72 | the ray through a pixel is a unit vector (or zero if the frame degenerates) |
| Renderer.ImageRays | satellite_sim/renderer.py:67-72 | one ray per pixel, `height` rows of `width` |
| Renderer.ImageRaysThroughPixels | satellite_sim/renderer.py:67-72 | each of those is the primary ray through its own pixel |
| Renderer.Scene.constructor | satellite_sim/renderer.py:40-50 | the scene holds the given planet, orbit, light and satellite radius |
| Renderer.Scene.Default | satellite_sim/renderer.py:40-50 | without a satellite radius the scene's satellite has the default radius 0.25 |
| Renderer.Scene.ShadePlanetHit | satellite_sim/renderer.py:100-125 | in the satellite's shadow only the hazed ambient colour remains |
| Renderer.Scene.ShadeSphereHit | satellite_sim/renderer.py:127-150 | in the planet's shadow only the ambient colour remains |
| Renderer.Scene.RayColor | satellite_sim/renderer.py:79-98 | a ray that misses both bodies sees the space colour |
| Renderer.Scene.ShadowedBySatellite | satellite_sim/renderer.py:197-201 | for a non-zero light direction, shadowed exactly when the satellite's sphere has a point beyond 1e-4 along the light ray started 0.01 off the point |
| Renderer.Scene.ShadowedByPlanet | satellite_sim/renderer.py:203-206 | a march with the default settings that reports a shadow has found a surface point ahead along the light ray started 0.01 off the point |
| Renderer.Scene.TraceRay | satellite_sim/renderer.py:79-98 | tracing with the marching loop gives the colour the specification assigns to the ray |
| Renderer.Scene.TraceRow | satellite_sim/renderer.py:69-74 | the row holds, in order, the colour of each of its rays |
| Renderer.Scene.TraceImage | satellite_sim/renderer.py:67-74 | a fresh image in which pixel (y, x) is the colour of ray (y, x) |
| Renderer.Scene.Render | satellite_sim/renderer.py:55-77 | a zero height fails before the orbit moves; otherwise the orbit advances by dt exactly once and each pixel is the quantised colour of its primary ray, traced against the satellite position read before the update |
| Physics.Length | satellite_sim/physics.py:37 | the length is non-negative, squares to x² + y², and is zero exactly at the origin |
| Physics.CubePositive | satellite_sim/physics.py:40 | a positive distance has a positive cube, so the division is defined |
| Physics.Acceleration | satellite_sim/physics.py:35-40 | zero at the centre and without gravity; always parallel to the position |
| Physics.Leapfrog | satellite_sim/physics.py:48-59 | a kick-drift-kick step advances the time by exactly dt |
| Physics.OrbitSimulator.constructor | satellite_sim/physics.py:27-29 | the body and the state as given, at time 0 |
| Physics.OrbitSimulator.Reset | satellite_sim/physics.py:31-33 | replaces the body and the state and restarts the clock |
| Physics.OrbitSimulator.CurrentAcceleration | satellite_sim/physics.py:35-40 | the acceleration at the current position, zero at the centre |
| Physics.OrbitSimulator.Step | satellite_sim/physics.py:42-59 | a non-positive dt changes nothing; otherwise the state becomes one leapfrog step and the time grows by exactly dt |
| Physics.OrbitSimulator.CurrentState | satellite_sim/physics.py:61-62 | a snapshot equal to the current state |
| Physics.KickKeepsMomentum | satellite_sim/physics.py:52 | a kick along the position keeps the angular momentum |
| Physics.DriftKeepsMomentum | satellite_sim/physics.py:53 | a drift along the velocity keeps the angular momentum |
| Physics.KickDriftKick | satellite_sim/physics.py:51-55 | kick, drift and kick together keep the angular momentum |
| Physics.LeapfrogConservesMomentum | satellite_sim/physics.py:42-59 | every step conserves the angular momentum exactly |
| Physics.FreeMotion | satellite_sim/physics.py:42-59 | without gravity a step moves in a straight line at constant velocity |
| Physics.SpecificEnergy | satellite_sim/physics.py:65-70 | infinite exactly at the centre; otherwise v²/2 - μ/r |
| Physics.MomentumAntisymmetric | satellite_sim/physics.py:73-74 | the z-component of r × v is antisymmetric in its arguments and zero when v is parallel to r |
| Physics.EccentricityVector | satellite_sim/physics.py:77-86 | division by zero exactly when off-centre with μ = 0; the zero vector at the centre |
| Physics.SemiMajorAxis | satellite_sim/physics.py:89-93 | absent exactly when the energy is infinite or non-negative; when present it and μ are positive |
| Physics.BoundNeedsGravity | satellite_sim/physics.py:65-70 | a negative energy needs μ > 0 |
| Physics.OrbitalPeriod | satellite_sim/physics.py:96-100 | defined exactly when the semi-major axis is, and then positive |
| Physics.Eccentricity | satellite_sim/physics.py:104 | non-negative, failing exactly when the eccentricity vector does |
| Physics.Periapsis | satellite_sim/physics.py:103-108 | the eccentricity's division error comes first; otherwise absent exactly when the semi-major axis is |
| Physics.Apoapsis | satellite_sim/physics.py:111-118 | the same error first; otherwise absent exactly when the semi-major axis is or the eccentricity is at least 1 |
| Physics.ApsidesOrdered | satellite_sim/physics.py:103-118 | whenever the apoapsis exists, so does the periapsis, and 0 < periapsis ≤ apoapsis |
| Physics.PeriapsisRaisesWithoutGravity | satellite_sim/physics.py:103-108 | off-centre with μ = 0 there is no semi-major axis, but the periapsis still fails with a division by zero |
| Durations.WholeSeconds | satellite_sim/physics.py:124-126 | `int()` of a non-negative duration is its floor; a negative one counts as 0 |
| Durations.Split | satellite_sim/physics.py:126-128 | days, hours, minutes and seconds add back up to the total, with hours < 24 and minutes, seconds < 60 |
| Durations.Decimal | satellite_sim/physics.py:131 | a non-empty string of decimal digits |
| Durations.Pad2 | satellite_sim/physics.py:133-135 | exactly two decimal digits |
| Durations.Parts | satellite_sim/physics.py:129-135 | the part count is 2, plus one when days ≠ 0, plus one when days or hours ≠ 0; the first part is the day count with "d" when days ≠ 0; the third part from the end is the two-digit hours with "h" when days or hours ≠ 0; the last two are the two-digit minutes with "m" and seconds with "s" |
| Durations.FormatSeconds | satellite_sim/physics.py:121-136 | "∞" for infinity and NaN; otherwise text whose space-separated words are the parts of the clamped whole seconds and which reads back as exactly that many seconds |
| Durations.NegativeIsZero | satellite_sim/physics.py:124-125 | a negative duration formats as "00m 00s" |
| Durations.DecimalReadsBack | satellite_sim/physics.py:131 | the decimal digits read back as the number |
| Durations.Pad2ReadsBack | satellite_sim/physics.py:133-135 | the padded digits read back as the number |
| Durations.PartsHaveNoSpace | satellite_sim/physics.py:129-135 | no part contains a space |
| Durations.WordsOfJoin | satellite_sim/physics.py:136 | parts without spaces, joined by spaces, split back into the same parts |
| Durations.PartsAddUp | satellite_sim/physics.py:129-135 | the parts' units add up to the split total |
| Durations.FormatReadsBack | satellite_sim/physics.py:121-136 | the text for n whole seconds reads back as exactly n seconds |

## Left out

- Floating point: every computation is exact real arithmetic. float32 storage of heights and images, float rounding and overflow are not modelled. The truncating cast to `uint8` is modelled as truncation of the clipped, scaled real.
- The transcendental functions are uninterpreted. Only the laws in `Lawful` and `TrigLawful` are used, so nothing depends on their actual values. The literal 3.141592653589793 stands for `math.pi`.
- Random generation: numpy's generator is not modelled. `generate(seed)` takes the drawn phases and craters as a `Draws` value whose ranges `WellFormed` states.
- Vectorised numpy: the grid operations are modelled cell by cell. `generate` computes each row, then stores it.
- Normalising the zero vector divides by zero (NaN in numpy). `Vectors.Normalize` returns the zero vector instead, and the contracts that state unit length allow that zero.
- Planets.SurfaceRadius: there is no row of its own; its bound is `Planets.SurfaceRadiusBounds`. Like `Planets.SurfaceNormal`, it requires a non-zero direction and a grid with at least one row and one column. For a zero direction the source divides by a zero norm and gets NaN, after which `int(nan)` in `radius_at_direction` (satellite_sim/planet.py:79) and `math.floor(nan)` in `normal_at_direction` (satellite_sim/planet.py:89) both raise `ValueError`; `requires d != Zero` leaves that error path out. The direction lookups read the `HeightField` snapshot of the array, not the array itself.
- Planets.SurfaceNormal: `RealMath.WrapAngle` is the exact `% (2π)` with a result in [0, 2π). With floats, a tiny negative `atan2` can round to exactly 2π, which makes `lon0` equal to `lon_steps` in `normal_at_direction` (satellite_sim/planet.py:86-95) and raises `IndexError`; `radius_at_direction` is protected by its extra `% lon_steps`. The exact model cannot reach that index, so this float edge case is not captured.
- Renderer.Scene.Valid / Renderer.Scene.Ready: rendering requires a non-zero base radius and satellite radius, where the source would divide by zero.
- The light's colour is stored but, as in the source, never used in shading.
- Cameras.Camera.Right / Cameras.Camera.Up: these are not normalised, as in the source. The view matrix's rows are therefore not orthonormal unless the pitch is 0.
- `Camera.view_parameters`, `state_summary`, `app.py`, `main.py` and `settings.py` (UI, pygame and text output) are not part of this model.
- Physics.EccentricityVector: Python's `ZeroDivisionError` is the `ZeroDivision` outcome. `Periapsis` and `Apoapsis` propagate it.
- Renderer.Scene.Render: a zero image height raises `ZeroDivisionError` in the source; here it returns `None` before the orbit is updated. The final `return self.space_color` of `_trace_ray` is unreachable and has no counterpart.
- Renderer.Scene.RayColor: its contract states the background case only. The shading cases are stated by `SelectHit`, `ShadeSphereHit`, `ShadePlanetHit` and `TraceRay`.
- Renderer.Scene.ShadowedByPlanet: states one direction only. A reported shadow has a surface point ahead, but a fixed-step march can step over a thin feature, so the converse does not hold for the source either. Like the pixel colours, it marches with the recursive `MarchFrom` rather than the loop method `MarchPlanet`; `MarchPlanet`'s contract shows the two equal.
- Planets.AngularDistance: no contract of its own. Its properties are `Planets.AngularDistanceBounded` and `Planets.CentreDistanceZero`, which rely on the laws of sin, cos and atan2 named in `RealMath.TrigLawful`.
- Orbits.OrbitSimulator: the source keeps a reference to the caller's `OrbitParameters` and mutates it in place. The model stores a value, so aliasing between the simulator and the caller's object is not captured.
- Orbits.Advanced: no contract of its own. Its properties are `Orbits.UpdatesCompose` and `Orbits.BackwardsHalfTurn`.
- Physics.Leapfrog: its contract states the time only. Its state is stated by `LeapfrogConservesMomentum` and `FreeMotion`.
